# Jewellery designer: a Dafny model

A model of the logic behind a web jewellery designer. A user picks a piece, a metal, a gem, a shape and an engraving, and the designer works with that selection in several ways:

- It computes a price from lookup tables.
- It writes a prose description of the piece.
- It keeps a list of saved designs, which can be loaded back or deleted.
- It lets the user draw custom shapes on a canvas.
- A "design by description" dialog reads a free-text request and turns it into a selection, with a confidence score for each field.

The model is organised in these modules:

- `Text` (text.dfy): the JavaScript string operations the components use, over `seq<char>`. These are `includes`, `startsWith`, `endsWith`, `trim`, `substring`, ASCII `toLowerCase`, number-to-string, `parseInt`/`parseFloat` on digit strings, and an exact `toFixed`.
- `Patterns` (patterns.dfy): each regular expression of the parser as a scanner for that one pattern. At every position the scanner follows the pattern's own backtracking order, and `Leftmost` finds the leftmost match, as `String.prototype.match` does.
- `Designs` (designs.dfy): the selection shared by the components, plus JavaScript truthiness (`x || fallback`).
- `Extractor` (extractor.dfy): the description parser, the confidences, the badge and the dialog's state.
  - The extractors that the source writes as straight if-chains are functions.
  - The ones that reassign a local variable step by step are methods, proved equal to reference functions.
- `Describer` (describer.dfy): the generated description, as functions over the selection and the price text.
- `Designer` (designer.dfy): the price and the saved-designs list, plus a class holding the designer's state. Its methods are save, load, delete, reset, shape selection, the +/- steppers and the preview rotation tick.
- `Shapes` (shapes.dfy): the shape picker as a class. It has the drawing-mode and pen flags, the current canvas path and the list of saved drawings; drawing i has the shape id "custom-i".

Some JavaScript values are represented specially:

- A gem of `null` is `None`.
- A price of `NaN` is `None` (a metal or gem missing from its table).
- Numbers are exact reals.

## Model

| member | source | states |
|---|---|---|
| Extractor.EarringsOnlyFromFallback | src/components/DesignByDescription.jsx:63-73 | The type checks run in the order ring, necklace/pendant, earring, bracelet, current value, "ring". Any text containing "earring" also contains "ring", so it gives "ring". The result is "earrings" exactly when the text names no ring, necklace, pendant or bracelet and the current type is "earrings". |
| Extractor.MetalPrecedence | src/components/DesignByDescription.jsx:75-87 | "gold" anywhere gives a gold variant, whatever other metal is named. With "rose" it is rose gold; with "white" and no "rose" it is white gold; with neither it is plain gold. With no metal word the current metal is kept, or "gold" when it is empty. Any metal word, or a known current metal, gives a known metal. |
| Extractor.GemPrecedence | src/components/DesignByDescription.jsx:89-108 | A named gem wins over a negation, even inside it ("no diamonds" gives diamond). A negation without a gem name gives no gem, whatever the current design holds. Any gem returned is truthy and is either the named gem or the current one. With no gem named and no negation, the current gem is kept when truthy and otherwise there is none. |
| Extractor.ClampReal | src/components/DesignByDescription.jsx:119-120 | The pair of bound checks leaves a value inside the bounds unchanged and replaces one outside by the nearer bound. |
| Extractor.ClampInt | src/components/DesignByDescription.jsx:147-148 | `ClampReal` for an integer count: the same four properties. |
| Extractor.GemSizeFor | src/components/DesignByDescription.jsx:110-129 | A carat match gives that number clamped into [0.5, 3], whatever the current size. Without one, "large" or "big" gives 2.5 and outranks "medium" (1.5), which outranks "small" or "tiny" (0.5). With none of these the current size is kept, or 1 when it is 0. A current size in range keeps the result in range. |
| Extractor.ExtractGemSize | src/components/DesignByDescription.jsx:110-129 | The step-by-step extractor equals `GemSizeFor`, so a carat match is clamped into [0.5, 3]. |
| Extractor.FirstNumberWord | src/components/DesignByDescription.jsx:136-158 | The first number word (in table order) that occurs in the text gives its value. None exactly when no word occurs. |
| Extractor.GemCountFor | src/components/DesignByDescription.jsx:131-180 | A numeric "<digits> <gem noun>" match gives that count clamped into [1, 7], whatever the current count. A current count in range keeps the result in range. Without a numeric match the result is at least the word count, at least 2 for a plural noun and at least 3 for a cluster word. |
| Extractor.ExtractGemCount | src/components/DesignByDescription.jsx:131-180 | The loop over the number words and the plural and cluster adjustments compute exactly `GemCountFor`. |
| Extractor.StoneCountsAsOne | src/components/DesignByDescription.jsx:136-158 | "stone" contains "one", the first table word, so any text with "stone" or "stones" starts from a count of 1. Without a numeric match or a cluster word the count is then 1, or 2 with a plural noun. |
| Extractor.ShapePrecedence | src/components/DesignByDescription.jsx:182-198 | "round" outranks every other shape word, and any shape word gives a built-in shape. Without one a custom-shape phrase gives "custom-1". With neither the current shape is kept, or "round" when it is empty. |
| Extractor.SurroundingIsRoundCluster | src/components/DesignByDescription.jsx:172-198 | "surrounding" contains "round", so such a text always gets the round shape. Without a numeric count it also gets at least 3 gems. |
| Extractor.RingSizeFor | src/components/DesignByDescription.jsx:200-214 | A size match gives that number clamped into [4, 13], whatever the current size. Without a match the current ring size is kept, or 7 when it is 0. A current ring size in range keeps the result in range. |
| Extractor.ExtractRingSize | src/components/DesignByDescription.jsx:200-214 | The extractor equals `RingSizeFor`, and a size match gives a size in [4, 13]. |
| Extractor.NoSizeInsideRingPrefix | src/components/DesignByDescription.jsx:205 | No "size" can begin between a "ring" and the end of the white space after it. |
| Extractor.RingPrefixOptional | src/components/DesignByDescription.jsx:205 | The optional "ring\s+" group never changes the captured size: the leftmost match with it equals the leftmost match of "size\s+<number>" alone. |
| Extractor.FirstLeadIn | src/components/DesignByDescription.jsx:227-241 | The first of the five lead-in phrases, in list order, whose pattern matches gives the capture. None exactly when none matches. |
| Extractor.EngravingFor | src/components/DesignByDescription.jsx:216-244 | A quoted text wins and is cut to 20 characters. Without one, the capture of the first matching lead-in phrase is trimmed and cut to 20. Without either, the current engraving is kept (or "" when it is empty). A lead-in capture never contains ',' or '.'. |
| Extractor.ExtractEngraving | src/components/DesignByDescription.jsx:216-244 | The extractor that loops over the lead-in phrases equals `EngravingFor`. |
| Extractor.TextNeedsTwoSpaces | src/components/DesignByDescription.jsx:232 | "text" followed by one white space character and then a word other than "saying"/"reading" is no match: both `\s+` need their own white space. |
| Extractor.CalculateConfidence | src/components/DesignByDescription.jsx:247-262 | The result is 0 for null or a blank string, and always in [0, 1]. Otherwise it lies within 0.15 of the base, unless clamped. Bases above 0.15 give a positive confidence, and bases of 0.4 or more give at least 0.25. |
| Extractor.Score | src/components/DesignByDescription.jsx:45-54 | The gem confidence is 0 exactly when there is no gem, and the engraving confidence is 0 exactly when it is blank. Type, metal and shape are at least 0.25 exactly when non-blank. Sizes and count always score at least 0.25. |
| Extractor.ParseDescription | src/components/DesignByDescription.jsx:30-58 | Running each extractor, then scoring, gives exactly the parse `Extract` defines. |
| Extractor.BadgeBand | src/components/DesignByDescription.jsx:535-546 | The badge is green exactly at 0.7 and above, and red exactly below 0.4. |
| Extractor.BadgePercent | src/components/DesignByDescription.jsx:549 | `Math.round(confidence * 100)` lies within half a unit of 100·confidence (halves round up), and in [0, 100] for a confidence in [0, 1]. |
| Extractor.BadgeBands | src/components/DesignByDescription.jsx:45-54 | With the bases used: an engraving is always green. Gem size, gem count and ring size are never green. A jewellery type or metal is never red when present. |
| Extractor.ToSelection | src/components/DesignByDescription.jsx:268-277 | applyDesign hands over every parsed field unchanged, and the parsed shape becomes the selected shape. |
| Extractor.ReparseIsStable | src/components/DesignByDescription.jsx:265-281 | Applying a parse and then parsing the same text against the new design gives the same parse (with the same random draws). |
| Extractor.FieldsStable | src/components/DesignByDescription.jsx:63-244 | Each of the eight extractors, run against a design that already holds its own earlier result, returns that result again. |
| Extractor.JewelryTypeStable | src/components/DesignByDescription.jsx:63-73 | Re-extracting the type against its own result gives it again. |
| Extractor.MetalTypeStable | src/components/DesignByDescription.jsx:75-87 | Re-extracting the metal against its own result gives it again. |
| Extractor.GemTypeStable | src/components/DesignByDescription.jsx:89-108 | Re-extracting the gem against its own result gives it again. |
| Extractor.SizesStable | src/components/DesignByDescription.jsx:110-129 | Re-extracting gem size and ring size against their own results gives them again. |
| Extractor.GemCountStable | src/components/DesignByDescription.jsx:131-180 | Re-extracting the count against its own result gives it again. |
| Extractor.ShapeStable | src/components/DesignByDescription.jsx:182-198 | Re-extracting the shape against its own result gives it again. |
| Extractor.EngravingStable | src/components/DesignByDescription.jsx:216-244 | Re-extracting the engraving against its own result gives it again. |
| Extractor.DescriptionDialog.constructor | src/components/DesignByDescription.jsx:10-13 | The dialog starts with empty text, not busy, and with no parse. |
| Extractor.DescriptionDialog.SetDescription | src/components/DesignByDescription.jsx:284-287 | Typing or picking an example sets the text and nothing else. |
| Extractor.DescriptionDialog.BeginParse | src/components/DesignByDescription.jsx:26-30 | The dialog becomes busy, and the text and current design are fixed for the parse. It is callable only while the button is enabled (not busy and a non-blank text, line 373). |
| Extractor.DescriptionDialog.CompleteParse | src/components/DesignByDescription.jsx:30-58 | The stored parse is `Extract` of the pending text and design, and the dialog is no longer busy. |
| Extractor.DescriptionDialog.ApplyDesign | src/components/DesignByDescription.jsx:265-281 | Nothing is handed over before a parse; after one, exactly `ToSelection` of it. |
| Describer.MetalDescription | src/components/DesignDescription.jsx:18-28 | The generic "high-quality metal" is used exactly for metals outside the six. |
| Describer.ShapeDescription | src/components/DesignDescription.jsx:31-44 | Any "custom-" shape is "custom-designed". "beautifully shaped" is used exactly for ids that are neither custom nor built-in. |
| Describer.GemColour | src/components/DesignDescription.jsx:50-57 | "beautiful" is used exactly for gems outside the table. |
| Describer.GemQuality | src/components/DesignDescription.jsx:59-66 | "exceptional quality" is used exactly for gems outside the table. |
| Describer.GemDescription | src/components/DesignDescription.jsx:47-69 | The gem phrase is empty exactly without a gem. Otherwise it ends with " of " and the gem's quality. |
| Describer.DescriptionFrame | src/components/DesignDescription.jsx:100-120 | Every description starts with "Exquisite <type> crafted from <metal>" and ends with the price sentence. |
| Describer.GemClauseForm | src/components/DesignDescription.jsx:103-108 | With a gem the clause starts " featuring ", the count prefix, the shape phrase and the gem, and ends with the carat-size note in brackets. Without one it is " with a <shape> design". |
| Describer.GemClausePlural | src/components/DesignDescription.jsx:104 | The gem noun right before the size note carries a plural "s" exactly when there is more than one gem. |
| Describer.GemClauseEach | src/components/DesignDescription.jsx:104-105 | The size note ends " each)" exactly when there is a gem and more than one of it. |
| Describer.GemClauseCount | src/components/DesignDescription.jsx:104 | The count is written before the gems exactly when it is more than one. |
| Describer.TypeParagraphEnding | src/components/DesignDescription.jsx:72-97 | Every type paragraph ends in a lower-case letter and a full stop. |
| Describer.TypeParagraphStart | src/components/DesignDescription.jsx:72-97 | Every type paragraph opens with its piece's own subject phrase. |
| Describer.RingParagraph | src/components/DesignDescription.jsx:74-77 | Only the ring paragraph starts "This ring features a band". |
| Describer.RingSizeMentioned | src/components/DesignDescription.jsx:75 | The ring paragraph states the ring size. |
| Describer.RingSizeOnlyForRings | src/components/DesignDescription.jsx:72-97 | The first sentence of the type paragraph ends with "and is available in size <n>. " exactly for a ring. |
| Describer.PronounAgreement | src/components/DesignDescription.jsx:74-92 | For rings, necklaces and bracelets with a gem, the sentence ends "their <gem phrase>." exactly when there is more than one gem. |
| Describer.EarringsAgreement | src/components/DesignDescription.jsx:86 | Earrings with a gem speak of "multiple" gems exactly when there is more than one. |
| Describer.GemVerbAgreement | src/components/DesignDescription.jsx:74-92 | For rings and bracelets with a gem, the gem sentence says "<gem>s are" exactly when there is more than one gem ("<gem> is" otherwise). |
| Describer.NecklaceVerbAgreement | src/components/DesignDescription.jsx:81 | For a necklace with a gem, the sentence says "pendant and accents are" exactly when there is more than one gem ("pendant is" otherwise). |
| Describer.EarringsVerbAgreement | src/components/DesignDescription.jsx:86 | For earrings with a gem, the paragraph ends "that capture the <gem phrase>." exactly when there is more than one gem ("captures" otherwise). |
| Describer.EngravingParagraphIff | src/components/DesignDescription.jsx:113-117 | A quoted engraving stands right before the price sentence exactly when the engraving is non-empty. |
| Describer.EngravingParagraphText | src/components/DesignDescription.jsx:113-117 | A non-empty engraving is written as the paragraph `Personalized with the engraving: "<text>".` right before the price sentence. |
| Text.FixedOneDecimal | src/components/DesignDescription.jsx:105 | `toFixed(1)` writes the nearest number of tenths, so it is within 0.05 of the carat size. |
| Designer.BasePrice | src/components/MainFeature.jsx:39-45 | The base price is one of the four table prices, and 200 for any other type. |
| Designer.MetalMultiplier | src/components/MainFeature.jsx:48-58 | The metal has a multiplier exactly when it is one of the six, and it lies in [1, 2]. |
| Designer.GemMultiplier | src/components/MainFeature.jsx:64-71 | The gem has a multiplier exactly when it is one of the six, and it lies in [1.3, 3]. |
| Designer.Price | src/components/MainFeature.jsx:35-77 | The price is a number exactly when the metal and (if truthy) the gem are in their tables. Without a gem it is base times metal multiplier. |
| Designer.PriceTextCents | src/components/MainFeature.jsx:76 | The price text is the price rounded to the nearest cent, with two decimals. |
| Designer.PriceTextIsNaN | src/components/MainFeature.jsx:58-76 | "NaN" is shown exactly when a lookup table has no entry. |
| Designer.PriceAtLeastMetal | src/components/MainFeature.jsx:61-74 | With non-negative size and count, gems never bring the price below base times metal. |
| Designer.PriceMonotoneInGems | src/components/MainFeature.jsx:73 | A larger gem size or gem count never lowers the price. |
| Designer.PriceFollowsMetal | src/components/MainFeature.jsx:48-73 | With all else equal, a metal with a larger multiplier gives a strictly larger price. |
| Designer.MetalOrdering | src/components/MainFeature.jsx:48-58 | The metals from dearest to cheapest: platinum, rose gold, white gold, gold, titanium, silver. |
| Designer.ShapeData | src/components/MainFeature.jsx:180 | A stored drawing counts only when its entry exists and is non-empty (JavaScript truthiness). |
| Designer.NewDesign | src/components/MainFeature.jsx:83-101 | Without a gem, size and count are stored as 0. The price is the price text. Drawing data is kept exactly for custom shapes with an entry in the map. |
| Designer.Loaded | src/components/MainFeature.jsx:110-117 | An empty stored shape loads as "round". |
| Designer.SaveLoadRoundTrip | src/components/MainFeature.jsx:80-128 | Saving and loading gives back the design. The exception is a design without a gem, which comes back with gem size 0 and gem count 0. |
| Designer.Without | src/components/MainFeature.jsx:131-133 | An entry remains exactly when it was there and its id differs. The list never grows. |
| Designer.WithoutAppend | src/components/MainFeature.jsx:132 | Filtering distributes over concatenation, so the entries kept stay in their order. |
| Designer.WithoutIdempotent | src/components/MainFeature.jsx:132 | Deleting the same id twice is deleting it once. |
| Designer.WithoutAbsent | src/components/MainFeature.jsx:132 | Deleting an id no entry has leaves the list as it is. |
| Designer.StepDown | src/components/MainFeature.jsx:401-483 | The minus button never goes below its floor. It goes down by one step where that stays above the floor, and it lowers any value above the floor. |
| Designer.StepUp | src/components/MainFeature.jsx:419-501 | The plus button never goes above its ceiling. It goes up by one step where that stays below the ceiling, and it raises any value below the ceiling. |
| Designer.StepDownInt | src/components/MainFeature.jsx:442 | The gem count never goes below its floor and otherwise drops by one. |
| Designer.StepUpInt | src/components/MainFeature.jsx:460 | The gem count never goes above its ceiling and otherwise rises by one. |
| Designer.SteppersKeepRange | src/components/MainFeature.jsx:401-501 | A value inside the range stays inside it whichever button is pressed. |
| Designer.NextAngle | src/components/MainFeature.jsx:28 | The angle stays in [0, 360) and otherwise grows by one degree. |
| Designer.AngleAfterTicks | src/components/MainFeature.jsx:26-32 | n ticks turn the preview by n degrees modulo 360. |
| Designer.FullTurn | src/components/MainFeature.jsx:26-32 | After 360 ticks the preview is back where it started. |
| Designer.Designer.constructor | src/components/MainFeature.jsx:9-23 | The designer starts with a gold ring without a gem, size 7, a round shape, and an empty list and map. |
| Designer.Designer.Tick | src/components/MainFeature.jsx:28 | One tick advances the angle by `NextAngle`, keeps it in [0, 360) and changes nothing else. |
| Designer.Designer.SetDesignName | src/components/MainFeature.jsx:940 | The name field is set and nothing else changes. |
| Designer.Designer.SaveDesign | src/components/MainFeature.jsx:80-106 | A blank name changes nothing. Otherwise exactly one `NewDesign` entry is appended and the name is cleared. |
| Designer.Designer.LoadDesign | src/components/MainFeature.jsx:109-128 | The selection becomes `Loaded` of the entry. A truthy drawing of a custom shape is put back into the map under its id. The list is unchanged. |
| Designer.Designer.DeleteDesign | src/components/MainFeature.jsx:131-133 | The list becomes `Without` the id. |
| Designer.Designer.ResetDesign | src/components/MainFeature.jsx:136-145 | The selection goes back to the initial one, and saved designs and drawings stay. |
| Designer.Designer.HandleShapeSelect | src/components/MainFeature.jsx:176-189 | The shape is selected. A drawing is stored only for a custom id with no truthy entry yet, and only when there is a canvas. An existing entry is never overwritten. Nothing else changes, so the designer's invariant is kept. |
| Designer.Designer.DecreaseGemSize | src/components/MainFeature.jsx:401-403 | `Math.max(0.5, size - 0.1)`, which keeps [0.5, 3], with only the size changing. The button is disabled at `gemSize <= 0.5`, so the handler runs only away from that bound. |
| Designer.Designer.IncreaseGemSize | src/components/MainFeature.jsx:419-421 | `Math.min(3, size + 0.1)`, which keeps [0.5, 3]. The button is disabled at `gemSize >= 3`, so the handler runs only away from that bound. |
| Designer.Designer.DecreaseGemCount | src/components/MainFeature.jsx:442-444 | `Math.max(1, count - 1)`, which keeps [1, 7]. The button is disabled at `gemCount <= 1`, so the handler runs only away from that bound. |
| Designer.Designer.IncreaseGemCount | src/components/MainFeature.jsx:460-462 | `Math.min(7, count + 1)`, which keeps [1, 7]. The button is disabled at `gemCount >= 7`, so the handler runs only away from that bound. |
| Designer.Designer.DecreaseRingSize | src/components/MainFeature.jsx:483-485 | `Math.max(4, size - 0.5)`, which keeps [4, 13]. The button is disabled at `ringSize <= 4`, so the handler runs only away from that bound. |
| Designer.Designer.IncreaseRingSize | src/components/MainFeature.jsx:501-503 | `Math.min(13, size + 0.5)`, which keeps [4, 13]. The button is disabled at `ringSize >= 13`, so the handler runs only away from that bound. |
| Shapes.GalleryId | src/components/ShapeSelector.jsx:164 | Every gallery id is a custom-shape id ("custom-" prefix). |
| Shapes.GalleryIdsDistinct | src/components/ShapeSelector.jsx:161-165 | Two drawings share an id exactly when they are the same drawing. |
| Shapes.GalleryIdIsCustom | src/components/ShapeSelector.jsx:14-21 | A drawing's id is neither a built-in id nor the drawing button's "custom", and the describer calls it "custom-designed". |
| Shapes.ShapeSelector.constructor | src/components/ShapeSelector.jsx:6-11 | The picker starts out of drawing mode, pen up, with no context and no drawings. |
| Shapes.ShapeSelector.HandleShapeSelect | src/components/ShapeSelector.jsx:127-134 | "custom" enters drawing mode and passes nothing on. When the canvas was closed, a fresh blank one opens. Any other id leaves drawing mode and is passed on unchanged. The drawing context changes only when the canvas first opens. |
| Shapes.ShapeSelector.StartDrawing | src/components/ShapeSelector.jsx:62-78 | The pen goes down and a path begins at the point, but only with a context in drawing mode. |
| Shapes.ShapeSelector.Draw | src/components/ShapeSelector.jsx:81-91 | The path grows by the point only while the pen is down in drawing mode with a context. |
| Shapes.ShapeSelector.StopDrawing | src/components/ShapeSelector.jsx:94-99 | The pen is lifted, but only with a context in drawing mode. |
| Shapes.ShapeSelector.SaveCustomShape | src/components/ShapeSelector.jsx:111-124 | With the canvas open, exactly one picture is appended and the id of the new entry is passed on. Drawing mode then ends. Without a canvas nothing happens. |
| Shapes.ShapeSelector.SelectGalleryShape | src/components/ShapeSelector.jsx:161-165 | Gallery button i selects `GalleryId(i)`, the id `SaveCustomShape` gave that drawing, and no other drawing's id. |

## Left out

- Presentation: markup, styling, animation, the modal and panel toggles, the copy-to-clipboard button (src/components/DesignDescription.jsx:124-128) and the dark-mode and routing shell. None of these affect the modelled state.
- Plain selection setters and sliders (the type, metal and gem buttons, the engraving input, the range inputs with `parseFloat`/`parseInt`). Each only assigns a field.
- Timers. The 1500 ms delay of the parse is modelled as two steps, `BeginParse` and `CompleteParse`. The 100 ms rotation interval is the `Tick` method.
- `Math.random()`. It is a parameter of eight values, one per field position. JavaScript draws only for fields that are present, so later fields take earlier draws. Indexing the draws by field position gives the same set of outcomes, because the draws are unconstrained.
- `Date.now()` ids and ISO dates are parameters of `SaveDesign`.
- Canvas and DOM. Pixels, `getContext`, `fillRect`, `closePath`, the resize handler, `toDataURL` and `querySelector` are not modelled. A picture is an opaque string handed in by the caller. `clearCanvas` only repaints pixels, so it has no modelled effect.
- Floating point. Numbers are exact reals, so repeated 0.1 steps do not drift as doubles do, and `toFixed` is exact rounding (valid below 10^21). Number-to-string for the ring size writes at most 20 fractional digits.
- `toLowerCase` and the regex `i` flag are ASCII-only here. JavaScript folds all of Unicode.
- Text.Prefix: string lengths count characters, whereas JavaScript's `substring(0, 20)` counts UTF-16 code units. For an engraving with characters outside the Basic Multilingual Plane (emoji), JavaScript keeps fewer characters and can split a surrogate pair. The model always keeps 20 whole characters.
- Lookups use only the tables' own keys. Object-prototype keys such as "constructor" are not modelled.
- DesignByDescription: its `onApplyDesign` callback is not wired into the designer in these sources, so the dialog's result is modelled as a returned selection.
- Extractor.Extract: it states no property of its own; its properties are carried by `Score`, `BadgeBands`, `ReparseIsStable` and `ParseDescription`.
- Designer.Designer.HandleShapeSelect: the canvas found by `document.querySelector` is a parameter (None when no canvas is on the page).
- Shapes.ShapeSelector: the canvas element exists exactly while drawing mode is on. The effect that takes its context when drawing mode changes is folded into entering drawing mode.
