# string_cosmo_communication: verified model of the scene-object rules

This project models the rule-based core of `anim_theoretical` and
`manim_string_cosmo`. These two packages of scene objects, tables and plots
draw string-cosmology pictures with the manim animation framework.
The geometry and rendering belong to manim. What the packages decide for themselves is modelled and
proved here:

- **Variant dispatch and index-based selection.** A `*_type` string picks an ordered list of parts for the
  bubble, the AdS junction and the black hole. The animation builders then pick
  parts by Python index and slice (`Bubble`, `AdsJc`, `BlackHole`, with
  Python's indexing and slicing rules in `Python`). Parts are tags; an
  animation is a tree of steps (`Anim`) whose targets, order, durations and
  tracker values are read off by functions.
- **Value trackers.** These are the energy bar of the bubble and the markers of the
  induced-potential and instanton plots. A `ValueTracker` class plays an
  animation and keeps the last value set by a step whose rate function ends
  at 1. A step whose rate function goes there and back, as `fail_creation`'s
  default does, leaves the tracker where it began.
- **Headings.** A `.animate` step runs towards a copy of its part made when
  the builder was called, while `Rotate` turns the part from where it is when
  the step begins. So the last step of `show_n_vector_rs` only moves the
  arrow, and the arrow ends reversed (`AdsJc.Heading`).
- **Tables.** The colour and corner rules for highlighted cells, the split and
  together layouts of the black-hole embedding table, the dot motions, and
  the header tables (`Tables`).
- **Plots.** The child ordering of the four plots, the tracker targets, the
  curve segments and the sign of the plotted potentials at the marked points
  (`Plots`).
- **Style records.** These are the `*_General` bases and their corner-radius vector
  `corner_rad * direction` (`Style`, plus `TableGeneral` and `PlotGeneral`).
- **Templates.** Name resolution with fallback in both packages, and the import side effect. A template
  module runs once, on its first import, and its writes become the class defaults for objects built
  afterwards. The default template's writes are transcribed (`Templates`).
- **Tooling.** The template-import rewrite of the render-all script
  (`Tooling`), the API-title rewrite of the two documentation scripts and
  the inherited-member filter (`ApiTitles`). The Python string operations
  they use are in `PyStr`.

Where the documentation and the code disagree, the model follows the code:

- In `Black_Hole` the brane is element 0 of every recognised type. The
  class note says `[-1]`.
- In the induced-potential plot the axes and labels form element 0 only
  with the box. Without it the axes alone are element 0 and the labels element 1.
- An unknown `bubble_type` creates no `bubble` group. `fade_in_bulk`,
  `fail_creation` and `create_bubble` then fail with AttributeError, but
  `expand_bubble` (falling to its last branch) and `show_radius` still work,
  because they do not index `self.bubble`.
- `show_symmetry` and `restore_symmetry` are documented for RS only. The model
  also states what the same indices pick in DB.
- `Plot_Instanton.decay` is documented as taking the field from the false
  vacuum V₊ to the true vacuum V₋, labelled at x = 1.15. The code stops the
  tracker at 0.7, short of V₋ and higher in potential than it.

## Model

| member | source | states |
|---|---|---|
| Python.At | src/anim_theoretical/objects/bubble.py:367-378 | `s[i]` succeeds exactly for `-len(s) <= i < len(s)`; a negative index counts from the end; otherwise IndexError |
| Python.Bound | src/anim_theoretical/objects/bubble.py:439-465 | a slice bound lands where Python puts it: a negative bound counts from the end, and the result is clamped to `0..len` |
| Python.SliceSplit | src/anim_theoretical/tables_and_plots/table_bh_embedding.py:47-60 | `s[:k] + s[k:] == s` for every integer k, negative or out of range |
| Python.SliceWithin | src/anim_theoretical/objects/bubble.py:439-465 | a slice is never longer than the sequence and holds only its elements |
| Python.AllButLast | src/anim_theoretical/objects/ads_jc.py:150-179 | for a non-empty sequence, `s[:-1] + [s[-1]]` is the whole sequence |
| PyStr.Split | examples/debug.py:29 | `split` never returns an empty list, and no piece holds the separator |
| PyStr.JoinSplit | examples/debug.py:29-40 | joining the pieces of a split gives back the string |
| PyStr.SplitJoin | examples/debug.py:29-40 | splitting a join of separator-free pieces gives back the pieces |
| PyStr.ContainsIff | examples/debug.py:33 | the `in` test holds exactly when some suffix starts with the substring |
| PyStr.StripIsTrimmedRun | docs/conf.py:100 | `strip` keeps a contiguous run that starts and ends with non-space characters, and leaves such a string alone |
| PyStr.UnescapeEscape | docs/conf.py:101-102 | replacing `\_` by `_` undoes escaping every underscore, for every string |
| PyStr.UnescapeNoBackslash | docs/conf.py:101-102 | a string without backslashes is left alone by the replacement |
| PyStr.Escape | docs/conf.py:101-102 | escaping never shortens a string and lengthens it exactly when it holds an underscore |
| PyStr.Repeat | docs/conf.py:109-110 | `c * n` has length n and holds only c |
| PyStr.LastPieceIsSuffix | docs/conf.py:106 | `split(".")[-1]` is a suffix with no dot, and the whole string when there is no dot |
| Anim.SettleIsLastTarget | src/anim_theoretical/objects/bubble.py:380-406 | playing an animation leaves a tracker at the last value set by a step whose rate function ends at 1, or where it was; a `there_and_back` step leaves it where it began |
| Anim.StopsAreTargets | src/manim_string_cosmo/tables_and_plots/plot_induced_potential.py:203-277 | when no step on the tracker returns, as with the default `linear`, every value a step drives it to is a value it stops at |
| Anim.WriteEach | src/manim_string_cosmo/tables_and_plots/plot_tension.py:146-148 | one Write per piece, in the order of the pieces |
| Anim.WriteEachIntroducesInOrder | src/anim_theoretical/tables_and_plots/plot_quantum.py:149-151 | writing each piece brings every piece on screen once, in order, and takes one run time per piece |
| Anim.ValueTracker.Play | src/manim_string_cosmo/tables_and_plots/plot_induced_potential.py:137 | a played animation moves the tracker to the value it settles on, which a returning rate function keeps at the start; building an animation never moves it |
| Style.BraneGeneral.constructor | src/anim_theoretical/objects/brane_general.py:36-51 | the defaults RED, 1, 0.1, 0.2, WHITE, each argument stored unchanged in its own field |
| Style.VacuumGeneral.constructor | src/anim_theoretical/objects/vacuum_general.py:40-59 | the defaults RED, 0.2, 0.2, WHITE, 0, [0,0,0,0]; `corner_rad` becomes the four products, `cr` keeps the scalar |
| Style.DefaultDirectionIsSquare | src/anim_theoretical/objects/vacuum_general.py:47-55 | with the default direction all four radii are 0, whatever the scalar |
| Style.OnlyCornerRounds | src/manim_string_cosmo/tables_and_plots/table_general.py:35-37 | a one-corner direction rounds exactly that corner of [UL, UR, DR, DL] by the scalar |
| Style.CornerRadiiScale | src/anim_theoretical/objects/vacuum_general.py:55 | the vector has the direction's length and entry k is `corner_rad * direction[k]`; a zero scalar squares every corner |
| Bubble.KindOfName | src/anim_theoretical/objects/bubble.py:287-347 | the seven `bubble_type` strings and the seven kinds correspond one to one |
| Bubble.Parts | src/anim_theoretical/objects/bubble.py:287-347 | a part list exists exactly for a recognised type, and has at least four parts |
| Bubble.Group | src/anim_theoretical/objects/bubble.py:287-347 | reading `self.bubble` fails with AttributeError exactly for an unrecognised type |
| Bubble.PartsLayout | src/anim_theoretical/objects/bubble.py:287-347 | in every type part 0 is the background box and part 1 the outside label; an unknown type adds nothing |
| Bubble.FadeInBulkTargets | src/anim_theoretical/objects/bubble.py:349-378 | `fade_in_bulk` fades `bubble[:2]`, and for `energy_discussion` also `bubble[-1]`, then creates the bar |
| Bubble.UnknownTypeErrors | src/anim_theoretical/objects/bubble.py:349-528 | with an unknown type three builders raise AttributeError and `expand_bubble` still scales the brane |
| Bubble.FadeInBulk | src/anim_theoretical/objects/bubble.py:349-378 | `fade_in_bulk` builds exactly for a recognised type, otherwise AttributeError |
| Bubble.FailCreationAnim | src/anim_theoretical/objects/bubble.py:380-406 | `fail_creation` builds exactly for a recognised type, otherwise AttributeError; its rate function defaults to one that returns to the start |
| Bubble.CreateBubble | src/anim_theoretical/objects/bubble.py:408-465 | `create_bubble` builds exactly for a recognised type, otherwise AttributeError |
| Bubble.ExpandBubbleAnim | src/anim_theoretical/objects/bubble.py:467-528 | `expand_bubble` never fails, even for an unknown type |
| Bubble.CreateBubbleOrder | src/anim_theoretical/objects/bubble.py:439-465 | what `create_bubble` brings on, in order, for em, strings, radiation, empty and energy_discussion |
| Bubble.CreateEmSteps | src/anim_theoretical/objects/bubble.py:439-446 | em: grow the brane, fade `[3:-2]` (the inside label), create field_top, then field_glow |
| Bubble.CreateStringsSteps | src/anim_theoretical/objects/bubble.py:448-453 | strings: grow, create the strings, fade `[-1]` |
| Bubble.CreateRadiationSteps | src/anim_theoretical/objects/bubble.py:455-459 | radiation: grow, then fade `[3:]` (label and mass) |
| Bubble.CreateEnergySteps | src/anim_theoretical/objects/bubble.py:430-437 | energy_discussion: the tracker goes to 2.5 and the real brane `bubble[3]` grows |
| Bubble.CreateFallbackSteps | src/anim_theoretical/objects/bubble.py:461-465 | the last branch grows `bubble[2]` and fades `bubble[3:-1]` |
| Bubble.CreateBubbleSkipsInsideLabel | src/anim_theoretical/objects/bubble.py:461-465 | for instanton and GW `bubble[3:-1]` is empty, so no builder ever brings the inside label on |
| Bubble.IntendedLifecycleShowsEveryPart | src/anim_theoretical/objects/bubble.py:408-423 | with the fade of `bubble[3:]` the builders bring every part of every type on screen |
| Bubble.CreateBubbleIntended | src/anim_theoretical/objects/bubble.py:408-465 | the corrected `create_bubble` fails exactly where the original does |
| Bubble.CreateIntendedFallbackSteps | src/anim_theoretical/objects/bubble.py:461-465 | corrected, the last branch brings on the brane-like part and then the inside label |
| Bubble.IntendedAgreesWhereCodeShowsLabel | src/anim_theoretical/objects/bubble.py:439-465 | the corrected builder equals the original for every other type |
| Bubble.ShowRadiusSteps | src/anim_theoretical/objects/bubble.py:530-546 | `show_radius` brings on only the radius line and label |
| Bubble.FailCreationSteps | src/anim_theoretical/objects/bubble.py:380-406 | `fail_creation` grows `bubble[2]` and drives the tracker towards 2; the tracker stays at 2 only when the rate function ends at 1 |
| Bubble.ExpandBubbleTargets | src/anim_theoretical/objects/bubble.py:492-528 | the part each type scales: `bubble[3]` by sca, the waves by sca, the brane and `bubble[-2:]` by 0.8·sca, the anchored brane, or the brane |
| Bubble.ExpandEnergySteps | src/anim_theoretical/objects/bubble.py:492-498 | energy_discussion: the tracker goes to 4.5, then the real brane scales |
| Bubble.ExpandGWSteps | src/anim_theoretical/objects/bubble.py:500-512 | GW: the brane waves scale by sca beside the broadcast |
| Bubble.ExpandEmSteps | src/anim_theoretical/objects/bubble.py:514-518 | em: the brane and the last two parts scale by 0.8·sca |
| Bubble.ExpandPlainSteps | src/anim_theoretical/objects/bubble.py:520-528 | strings scale the anchored brane; the other types the brane alone |
| Bubble.EnergyBarRises | src/anim_theoretical/objects/bubble.py:87-91 | in the documented call order the bar reads 0.8, 0.8, 2.5, 4.5 within the box width: the failed nucleation peaks at 2, below the 2.5 of `create_bubble`, and falls back |
| Bubble.FadeInBulkNoTracker | src/anim_theoretical/objects/bubble.py:367-378 | `fade_in_bulk` does not move the tracker |
| Bubble.BuildStrings | src/anim_theoretical/objects/bubble.py:169-204 | 8 anchors at 45° steps; a diagonal string ends `cr/6` short of its corner, an axis string at the corner |
| Bubble.BuildGlow | src/anim_theoretical/objects/bubble.py:228-247 | the loop builds `field_gradient` rings, ring idx being the ring the formula gives |
| Bubble.GlowRises | src/anim_theoretical/objects/bubble.py:228-247 | the outer radius starts at the inner radius, rises strictly with idx and stays below `rad` |
| Bubble.RingsRise | src/anim_theoretical/objects/bubble.py:228-247 | a later ring reaches strictly further out |
| Bubble.RingBelowRad | src/anim_theoretical/objects/bubble.py:228-247 | every ring stays strictly inside `rad` |
| Bubble.GlowOpacityTotal | src/anim_theoretical/objects/bubble.py:240 | the rings' opacities `0.75/grad` add up to 0.75 |
| Bubble.Bubble.constructor | src/anim_theoretical/objects/bubble.py:95-347 | the stored arguments, part list, children, 8 strings (string i anchored at 45·i degrees on the brane, heading to box position i, diagonal ones inset by `cr/6`), glow rings, and a fresh tracker at 0.8 |
| Bubble.Bubble.FailCreation | src/anim_theoretical/objects/bubble.py:403-405 | returns the animation, with the rate function passed on, and shrinks `bubble[2]` in place to 0.8 of its scale |
| Bubble.Bubble.ExpandBubble | src/anim_theoretical/objects/bubble.py:500-504 | returns the animation; for GW the broadcast waves are scaled in place by 0.6·sca, compounding across calls |
| AdsJc.ObjectParts | src/anim_theoretical/objects/ads_jc.py:125-146 | a part list exists exactly for RS and DB |
| AdsJc.ObjectGroup | src/manim_string_cosmo/objects/ads_jc.py:136-157 | reading `self.object` fails with AttributeError exactly for an unknown type |
| AdsJc.ObjectLayout | src/anim_theoretical/objects/ads_jc.py:125-146 | RS has 7 parts and DB 6, all distinct, with the brane first and the arrow last |
| AdsJc.UnknownVacuaErrors | src/manim_string_cosmo/objects/ads_jc.py:161-305 | every builder fails with AttributeError for an unknown type |
| AdsJc.FadeInObject | src/anim_theoretical/objects/ads_jc.py:150-163 | `fade_in` builds its animation exactly for a known type, otherwise AttributeError |
| AdsJc.FadeInArrow | src/anim_theoretical/objects/ads_jc.py:165-179 | `fade_in_arrow` builds exactly for a known type, otherwise AttributeError |
| AdsJc.ShowSymmetry | src/anim_theoretical/objects/ads_jc.py:181-207 | `show_symmetry` builds exactly for a known type, otherwise AttributeError |
| AdsJc.RestoreSymmetry | src/anim_theoretical/objects/ads_jc.py:209-229 | `restore_symmetry` builds exactly for a known type, otherwise AttributeError |
| AdsJc.ShowNVectorRS | src/anim_theoretical/objects/ads_jc.py:231-253 | `show_n_vector_rs` builds exactly for a known type, otherwise AttributeError |
| AdsJc.ShowNVectorDB | src/anim_theoretical/objects/ads_jc.py:255-269 | `show_n_vector_db` builds exactly for a known type, otherwise AttributeError |
| AdsJc.FadeInsPartitionParts | src/anim_theoretical/objects/ads_jc.py:150-179 | `fade_in` (`[:-1]`) and `fade_in_arrow` (`[-1]`) bring on every part once, the arrow only in the second |
| AdsJc.SymmetryTargets | src/manim_string_cosmo/objects/ads_jc.py:198-230 | RS fades out the outside label and turns the outside box; in DB the same indices pick the outside box and the inside label |
| AdsJc.UndoUndo | src/anim_theoretical/objects/ads_jc.py:198-229 | undoing a fade or a turn twice gives it back |
| AdsJc.RestoreUndoesShow | src/anim_theoretical/objects/ads_jc.py:209-229 | `restore_symmetry` is `show_symmetry` undone step by step in reverse order, the turn about the opposite axis, in either arrangement |
| AdsJc.RestoreFadesBackIn | src/anim_theoretical/objects/ads_jc.py:181-229 | what `show_symmetry` fades out, `restore_symmetry` fades back in |
| AdsJc.NormalVectorRS | src/anim_theoretical/objects/ads_jc.py:231-253 | three steps that leave the arrow at the group's right edge, reversed: the `Rotate` gives the half turn, and the last step's `rotate(PI)`, applied to a copy made when the method was called, only moves it |
| AdsJc.NormalVectorDB | src/manim_string_cosmo/objects/ads_jc.py:285-305 | one step that moves the arrow to the right edge and leaves its heading as it was |
| AdsJc.AdSJc.constructor | src/manim_string_cosmo/objects/ads_jc.py:58-157 | the stored type, arrow colour and styles; the part list; the box opacities (DB inside `+0.3`) |
| AdsJc.InsideBoxOpacity | src/manim_string_cosmo/objects/ads_jc.py:70-111 | in every junction built, whatever its arguments, RS's inside box is as opaque as the outside one and DB's inside box is 0.3 more opaque than its outside box |
| BlackHole.ChildrenLayout | src/anim_theoretical/objects/black_hole.py:94-99 | the part lists per `bh_type`: the brane is first and never last, nothing for an unknown type, theta only when spinning |
| BlackHole.DefaultBhSizeFromBrane | src/anim_theoretical/objects/black_hole.py:48 | the default size is the radius of a default brane style |
| BlackHole.NucleateScalesBrane | src/anim_theoretical/objects/black_hole.py:101-116 | `nucleate` scales the brane alone, moves nothing and brings nothing on |
| BlackHole.ExpandTargets | src/manim_string_cosmo/objects/black_hole.py:136-166 | `expand` scales the brane for every type and moves theta along its path exactly when spinning, in one parallel group |
| BlackHole.ThetaPathRadius | src/manim_string_cosmo/objects/black_hole.py:83-88 | the path radius is `0.7·bh_size` |
| BlackHole.ThetaPathInsideHole | src/anim_theoretical/objects/black_hole.py:58-75 | for a positive size the path lies strictly inside the disc |
| BlackHole.LabelsAboveHole | src/manim_string_cosmo/objects/black_hole.py:72-105 | in every black hole built, whatever its arguments, the disc is drawn over the brane and the μ, θ and Q > T labels over the disc |
| BlackHole.BlackHole.constructor | src/manim_string_cosmo/objects/black_hole.py:59-112 | the defaults BLACK and 0.8, the children per type, the path radius, the font size `35·bh_size`, the drawing order |
| Tables.TableGeneral.constructor | src/anim_theoretical/tables_and_plots/table_general.py:40-63 | the defaults and the stored fields, with `corner_rad` the four products |
| Tables.TableGeneral.HighlightPalette | src/manim_string_cosmo/tables_and_plots/table_energy_scales.py:37-60 | the highlight colours, `corner_rad[0]` and opacity `fill_opa + 0.1`; IndexError exactly when the corner list is empty |
| Tables.DefaultPaletteIsSquare | src/manim_string_cosmo/tables_and_plots/table_general.py:84-95 | with the default direction the corner used for highlights is 0 |
| Tables.EndCornersRule | src/anim_theoretical/tables_and_plots/table_bh_embedding.py:135-271 | only the first cell of a row gets mask [1,0,0,0] and only the last [0,0,0,1]; the cell sits in row 1, column i+1 |
| Tables.HeaderColors | src/manim_string_cosmo/tables_and_plots/table_summary.py:43-57 | the three header cells get the three highlight colours left to right |
| Tables.TogetherMatchesSplit | src/anim_theoretical/tables_and_plots/table_bh_embedding.py:230-271 | each cell of the together row has the colour of its cell in the split rows, and masks only at the two ends |
| Tables.MobjectTable.AddHighlightedCell | src/anim_theoretical/tables_and_plots/table_bh_embedding.py:135-162 | a highlight is appended and the labels are kept |
| Tables.MobjectTable.SetLabel | src/anim_theoretical/tables_and_plots/table_bh_embedding.py:135-162 | one coordinate label is recoloured and nothing else changes |
| Tables.HighlightRow | src/anim_theoretical/tables_and_plots/table_bh_embedding.py:135-271 | the loop highlights every cell of the row by the rules and tints every coordinate with its cell's colour |
| Tables.HighlightHeader | src/manim_string_cosmo/tables_and_plots/table_energy_scales.py:46-60 | the three header highlights are appended, in order |
| Tables.CoordinateSplit | src/anim_theoretical/tables_and_plots/table_bh_embedding.py:47-60 | the first 4 and last 5 coordinates concatenate back to the 9, each half one to one with its glyphs |
| Tables.MoveCompactTargets | src/anim_theoretical/tables_and_plots/table_bh_embedding.py:301-323 | `move_compact` moves the dots of the last three compact dimensions |
| Tables.MoveAllTargets | src/anim_theoretical/tables_and_plots/table_bh_embedding.py:325-354 | `move_all` moves the last three of the nine dots and the AdS dot, four moves |
| Tables.MoveAllIsSplitMoves | src/anim_theoretical/tables_and_plots/table_bh_embedding.py:284-354 | the together moves are the compact and non-compact moves, dimension for dimension |
| Tables.ToSplitMoves | src/anim_theoretical/tables_and_plots/table_bh_embedding.py:284-354 | the renaming of moves from the together row to the split rows, move by move |
| Tables.AssembleLayouts | src/anim_theoretical/tables_and_plots/table_bh_embedding.py:273-282 | together adds table and box; split adds the non-compact pair, then the compact pair; any other type nothing |
| Tables.TableBhEmbedding.constructor | src/anim_theoretical/tables_and_plots/table_bh_embedding.py:41-282 | the three tables with their highlights and tints by the rules, and the children per layout |
| Tables.NewTableBhEmbedding | src/anim_theoretical/tables_and_plots/table_bh_embedding.py:41-282 | builds the table exactly when `corner_rad` is non-empty, and then with the given style and the layout's children |
| Tables.GridShapes | src/manim_string_cosmo/tables_and_plots/table_summary.py:14-26 | the energy table is 5×3 and the summary 6×3 with header ["5D", "4D", "Article"] |
| Tables.HeaderTable.constructor | src/manim_string_cosmo/tables_and_plots/table_energy_scales.py:14-70 | the grid, the header highlights, stroke opacity `2·fill_opa`, a zero-fill box, children [tab, box] |
| Tables.NewHeaderTable | src/manim_string_cosmo/tables_and_plots/table_energy_scales.py:14-70 | either table, with the summary's box at z 1, exactly when `corner_rad` is non-empty; the energy-scale table fails with IndexError otherwise |
| Plots.PlotGeneral.constructor | src/manim_string_cosmo/tables_and_plots/plot_general.py:97-128 | the defaults and the stored fields, with `corner_rad` the four products |
| Plots.InducedChildrenOrder | src/manim_string_cosmo/tables_and_plots/plot_induced_potential.py:142-169 | element 0 is axes, labels and box only with the box, otherwise the axes alone; the three curves, then the marker last |
| Plots.NucleateTargets | src/manim_string_cosmo/tables_and_plots/plot_induced_potential.py:203-220 | the marker fades in, then the tracker goes to 1.7 |
| Plots.AccelerateTargets | src/manim_string_cosmo/tables_and_plots/plot_induced_potential.py:222-236 | the tracker goes to 2.4 |
| Plots.BounceTargets | src/manim_string_cosmo/tables_and_plots/plot_induced_potential.py:238-257 | 3.9 then 1.72, in two halves of rt |
| Plots.AddCcTargets | src/manim_string_cosmo/tables_and_plots/plot_induced_potential.py:259-277 | write the new curve, wait, then 6; rt/3 + wait + 2rt/3 |
| Plots.InducedStory | src/manim_string_cosmo/tables_and_plots/plot_induced_potential.py:51-277 | from the start at 1.2 the calls settle at 1.7, 2.4, 1.72, 6, and every target lies in the axis range [1.2, 6] |
| Plots.PlotInducedPotential.constructor | src/manim_string_cosmo/tables_and_plots/plot_induced_potential.py:136-169 | the children per decorator and a fresh tracker at 1.2 |
| Plots.InstantonLayout | src/manim_string_cosmo/tables_and_plots/plot_instanton.py:112-152 | the field position is last and alone faded in; the box is in element 0 exactly with the box |
| Plots.InstantonDecays | src/manim_string_cosmo/tables_and_plots/plot_instanton.py:79-182 | `decay` settles at 0.7 from any start; both tracker values lie in the curve and axis ranges; the potential is lower at the true vacuum and at 0.7 than at the false vacuum; 0.7 lies short of the V₋ label at 1.15 and above it in potential, so the field does not reach the true vacuum the documentation names |
| Plots.PlotInstanton.constructor | src/manim_string_cosmo/tables_and_plots/plot_instanton.py:104-127 | the children per decorator and a fresh tracker at -0.845649 |
| Plots.SegmentsTile | src/manim_string_cosmo/tables_and_plots/plot_tension.py:32-103 | the three segments are adjacent and inside the axis range, and the two dots sit at the joins |
| Plots.TensionFactors | src/manim_string_cosmo/tables_and_plots/plot_tension.py:54-84 | `12σ²·Λ₄` factors as `(σ-3)(σ-21)(σ+3)(σ+21)` |
| Plots.TensionSigns | src/manim_string_cosmo/tables_and_plots/plot_tension.py:54-103 | Λ₄ vanishes at the dots, is negative on the dashed middle segment and positive on the two outer ones |
| Plots.CreateFunctionWritesAll | src/manim_string_cosmo/tables_and_plots/plot_tension.py:105-148 | `create_function` writes the five pieces once each, in order; the box heads element 0 exactly with the box |
| Plots.PlotLambdaTension.constructor | src/manim_string_cosmo/tables_and_plots/plot_tension.py:105-134 | the children per decorator |
| Plots.WaveFunctionsWritten | src/anim_theoretical/tables_and_plots/plot_quantum.py:116-151 | the four pieces are written once each, in order; element 1 is `to_draw`; element 0 differs from the potential group exactly with the box |
| Plots.QuantumFactors | src/anim_theoretical/tables_and_plots/plot_quantum.py:57-63 | `a² - a⁴/16` factors as `a(4-a)·a(4+a)/16` |
| Plots.RegionsSplitAtRoot | src/anim_theoretical/tables_and_plots/plot_quantum.py:44-63 | the divider at 4 is the potential's root: positive over region I, negative over region II |
| Plots.PlotQuantum.constructor | src/anim_theoretical/tables_and_plots/plot_quantum.py:116-137 | the children per decorator |
| Templates.AllowedNames | src/manim_string_cosmo/templates/color_scheme.py:26-59 | eight distinct names, and "default_template" is not one of them |
| Templates.ResolutionFallback | src/manim_string_cosmo/templates/color_scheme.py:62-67 | an allowed name selects its own module, any other the default template, always one of the nine collection modules |
| Templates.CollectionModules | src/manim_string_cosmo/templates/color_scheme.py:50-67 | the nine modules a call can import |
| Templates.ResolutionInjective | src/manim_string_cosmo/templates/color_scheme.py:62-67 | different allowed names select different modules, none of them the default |
| Templates.Interpreter.Import | src/manim_string_cosmo/templates/color_scheme.py:69 | an import fails with ImportError when the module is missing; otherwise the module runs only on its first import, and only then are its writes applied to the class defaults |
| Templates.Interpreter.ModuleWrites | src/manim_string_cosmo/templates/collection/default_template.py:25-57 | running the default template writes `Writes(DefaultBundle)`; any other module writes what it is given |
| Templates.Interpreter.ImportStringCosmoTemplate | src/manim_string_cosmo/templates/color_scheme.py:8-69 | one import of the resolved module and no value back; a first import sets the class defaults to the chosen module's writes, a repeated one leaves them; a name outside the list, on first import, leaves the defaults at the default template's writes, which are the constructors' own |
| Templates.ImportTemplate | src/anim_theoretical/templates/color_scheme.py:49-74 | as written: a module comes back only for an allowed name whose import succeeds |
| Templates.FallbackNeverReturned | src/anim_theoretical/templates/color_scheme.py:62-74 | a name outside the list tries `template_0` and gets None, whether or not the import succeeds |
| Templates.FallbackDroppedExample | src/anim_theoretical/templates/color_scheme.py:62-74 | "B/W" with `template_0` present gets None as written and the module when corrected |
| Templates.ImportTemplateReturningFallback | src/anim_theoretical/templates/color_scheme.py:11-48 | the documented loader: the module it tries comes back whenever its import succeeds |
| Templates.ReturnedIffImported | src/anim_theoretical/templates/color_scheme.py:49-74 | corrected, a module comes back exactly when the import succeeds; same module tried, same result for allowed names |
| Templates.Interpreter.ImportTemplateCall | src/anim_theoretical/templates/color_scheme.py:49-74 | one import attempt, never an escaping ImportError, the value `ImportTemplate` gives, and the attempted module's writes on its first import |
| Templates.Writes | src/manim_string_cosmo/templates/collection/default_template.py:25-57 | the background is the bundle's, the bubble colours are blue whatever the bundle says, and the corner radii come from the bundle |
| Templates.TextColorUnused | src/manim_string_cosmo/templates/collection/default_template.py:9 | two bundles that differ only in `text_color` write the same values |
| Templates.DefaultTemplateOnlySetsBackground | src/manim_string_cosmo/templates/collection/default_template.py:7-57 | the default template writes exactly the keyword defaults `Factory` lists, and every vacuum corner is square |
| Templates.FactoryMatchesConstructors | src/manim_string_cosmo/objects/black_hole.py:59-63 | objects built without arguments carry the values `Factory` lists: `AdS_Jc` and `Black_Hole` as written to; `Brane_General`, `Vacuum_General` and `Bubble` through their `anim_theoretical` copies |
| Templates.ClassDefaults.RunDefaultTemplate | src/manim_string_cosmo/templates/collection/default_template.py:25-57 | the sequence of writes leaves the store at the bundle's writes |
| Templates.ClassDefaults.Apply | src/manim_string_cosmo/templates/collection/quantum_dusk.py:25-57 | another template module's writes replace the store |
| Tooling.RewriteLines | examples/debug.py:32-38 | one output line per input line, each the rewrite of its own line |
| Tooling.ModifyTemplateImport | examples/debug.py:27-40 | the loop computes the split, rewrite and join |
| Tooling.ImportLineIsMarked | examples/debug.py:33-35 | the new import line holds the marker |
| Tooling.ModifiedLines | examples/debug.py:27-40 | same number of lines; a marker line becomes the import line alone, every other line is kept in order |
| Tooling.UnmarkedUnchanged | examples/debug.py:27-40 | without a marker line the content comes back unchanged |
| Tooling.Idempotent | examples/debug.py:33-36 | a second rewrite with the same name changes nothing |
| Tooling.LastWins | examples/debug.py:33-36 | a rewrite with another name replaces the earlier one |
| Tooling.OutputNamesDistinct | examples/debug.py:61 | renders with different templates never share an output name |
| Tooling.CountOutcomes | examples/debug.py:107-114 | the loop counts the successes, and successes plus failures is the number of templates tried |
| Tooling.Successes | examples/debug.py:107-114 | the number of successful renders never exceeds the number tried |
| Tooling.TemplatesTriedOnce | examples/debug.py:15-24 | eight distinct template names |
| ApiTitles.NameRun | docs/conf.py:104 | the longest run of `[\w\.]` characters at the start |
| ApiTitles.MatchPrefixIff | docs/remove_extra_text.py:15 | the unanchored-end match succeeds with a group exactly when the line starts with the name, a space and the word |
| ApiTitles.MatchFullIff | docs/conf.py:104 | the full match succeeds exactly when the line is the name, a space and the word, with at most a final newline |
| ApiTitles.FullMatchIsPrefixMatch | docs/conf.py:104 | a full match is also a prefix match with the same group |
| ApiTitles.CleanTitle | docs/conf.py:94-112 | a page written back keeps its length and every line past the second; the only error is IndexError |
| ApiTitles.ShortenTitle | docs/remove_extra_text.py:9-24 | the same for the other script |
| ApiTitles.CleanTitleStep | docs/conf.py:104-112 | a matching page gets the leaf and an underline of the leaf's length |
| ApiTitles.ShortenTitleStep | docs/remove_extra_text.py:15-24 | a matching page gets the leaf and an underline of the stripped title's length |
| ApiTitles.CleanTitleOfGenerated | docs/conf.py:98-112 | a generated page, with its underscores escaped, gets the unescaped leaf and a matching underline |
| ApiTitles.ShortenTitleMissesEscaped | docs/remove_extra_text.py:15 | a generated page whose name holds an underscore is left as it was |
| ApiTitles.ScriptsAgreeWithoutUnderscore | docs/remove_extra_text.py:15-24 | for a name without underscores both scripts retitle the page the same |
| ApiTitles.RetitleIdempotent | docs/conf.py:104-112 | a retitled page is left alone by a second run of either script |
| ApiTitles.TitleErrors | docs/remove_extra_text.py:13-22 | both scripts fail exactly on an empty page or a matching one-line page |
| ApiTitles.RetitleDirectory | docs/conf.py:94-112 | the loop over the listing computes the run over the pages |
| ApiTitles.RunOver | docs/remove_extra_text.py:9-11 | only `.rst` pages are written, no more pages than listed |
| ApiTitles.WrittenPagesComeFromDirectory | docs/conf.py:95-112 | every page written is a listed page under its own name, with its own lines past the second |
| ApiTitles.SkipInheritedMembers | docs/conf.py:120-127 | True exactly when the member has an `__objclass__`, a class is set and the names differ; otherwise `skip` |

## Left out

- Geometry, LaTeX typesetting, SVG loading, colours as RGB, and positions (`next_to`, `move_to`, `get_corner`). Parts are tags, and places are named references.
- Interpolation, updaters and `always_redraw`. Steps keep their targets, order and run time. Of a rate function only where it ends is kept (`RateEnd`), and only on `.animate` steps, where it decides the value a tracker is left at.
- Steps that pass their rate function as `rate_function=` (bubble.py:442, 443, 452, 458, 464, 545; manim_string_cosmo ads_jc.py:179) or `rate_functions=` (table_bh_embedding.py:298, 318, 343, 351): manim does not read those keywords, so the steps run at its default rate whatever `rf` is. The model is not affected, because it keeps a rate only on `.animate` steps, and none of these is one.
- Rate functions passed by callers: `fail_creation` takes its rate function as a parameter (default `there_and_back_with_pause`); every other builder is taken with its default `linear`, which ends at its target.
- Bubble.FailCreationSteps: `GrowFromCenter` under `there_and_back_with_pause` grows `bubble[2]` and shrinks it back to a point; the model records that the part is brought on, not that it collapses again.
- The `run_time` a Succession passes to all its steps (`show_n_vector_rs`/`_db`). The model keeps the steps' own run times.
- The plotted curves other than the quantum and tension potentials and the instanton potential at the marked points. They are floating-point numerics, and the reals here are exact.
- The other template collection files and `fancy_mint.py`. Their dictionaries are not transcribed; what those modules write enters `Interpreter` as its `others` parameter.
- How manim's `set_default` combines the written keywords with the ones it is not given. It lives in the framework, so the model records only the values written.
- The file system, `os.listdir`, `subprocess`, `tempfile`, `sys.exit` and `print` in the tooling and docs scripts. Pages and render outcomes are parameters.
- Bubble.Bubble.FailCreation: the in-place shrink happens before the animation is built and is recorded as a scale factor. The part's geometry is not modelled.
- Tables.NewTableBhEmbedding: with an empty `corner_rad` the list reaches manim's `RoundedRectangle` (table_bh_embedding.py:81-82) before `corner_rad[0]` is read. So the exception comes from the framework, and the contract promises only that building fails. The model fails before building anything.
- Tables.NewHeaderTable: for the summary table the empty list reaches `RoundedRectangle` (table_summary.py:35-36) before `corner_rad[0]` is read. So the contract promises IndexError only for the energy-scale table, which indexes first.
- Tables.TableBhEmbedding.constructor: the `chosen_position` placement of the split layout is geometry and is left out.
- Tables.HeaderTable.constructor: the z-index of the energy table's highlights is not modelled.
- Plots.InstantonDecays: the potential is compared at the marked x values only, not over the whole curve.
- Templates.Interpreter.ImportStringCosmoTemplate: only the default template's writes are transcribed (`ClassDefaults.RunDefaultTemplate`). Those of the other collection modules are the `others` parameter.
- Templates.FactoryMatchesConstructors: `default_template.py` writes to `manim_string_cosmo`'s `Brane_General`, `Vacuum_General` and `Bubble`, which are not part of this model. Their `anim_theoretical` copies stand in, taken to carry the same keyword defaults.
- Templates.DefaultTemplateOnlySetsBackground: for the same three classes, "the constructors' own defaults" rests on the same assumption.
- ApiTitles.NameRun: `[\w\.]` is taken over ASCII. Python 3's `\w` on a str pattern also matches every other Unicode letter and digit, so the model agrees with the scripts on ASCII names only.
- ApiTitles.MatchPrefixIff: holds against the ASCII `\w`, so it describes the script on ASCII titles only.
- ApiTitles.MatchFullIff: holds against the ASCII `\w`, so it describes the script on ASCII titles only.
- ApiTitles.CleanTitle: agrees with `clean_api_titles` on titles whose names are ASCII. Stripping follows Python 3's full whitespace set.
- ApiTitles.ShortenTitle: agrees with `shorten_api_titles_remove_suffix` on titles whose names are ASCII.

## Findings

| source | as written | input that shows it | evidently intended | confidence | as-written member | corrected member |
|---|---|---|---|---|---|---|
| src/anim_theoretical/objects/bubble.py:461-465 | the last branch of `create_bubble` fades `bubble[3:-1]` | `bubble_type="instanton"` or `"GW"`: four parts, so `[3:-1]` is empty and the inside label never appears | fade the inside label, `bubble[3:]` for these types | not executed | Bubble.CreateBubbleSkipsInsideLabel | Bubble.IntendedLifecycleShowsEveryPart |
| src/anim_theoretical/templates/color_scheme.py:62-74 | the fallback branch imports `template_0` but returns nothing | `import_template("B/W")` with `template_0` importable returns None | return the imported fallback module like the allowed branch | not executed | Templates.FallbackNeverReturned | Templates.ReturnedIffImported |
| docs/remove_extra_text.py:15 | the title is matched without unescaping `\_` | a page titled `manim\_string\_cosmo.objects module` is never shortened | unescape before matching, as docs/conf.py:100-104 does | not executed | ApiTitles.ShortenTitleMissesEscaped | ApiTitles.CleanTitleOfGenerated |
