# genppd: PPD generation for the Gutenprint CUPS driver

This project models the core of `genppd` (src/cups/genppd.c). For each printer model,
`genppd` writes one PostScript Printer Description file per requested variant:

- simplified;
- standard;
- standard without colour options.

The model covers the parts of `write_ppd` that turn the driver's parameter descriptions into
PPD keywords:

- the page-size tables, the media-type, input-slot, quality, resolution, output-order,
  duplex and shrink sections;
- the generic options grouped by class and level (`print_group`, `print_one_option`);
- the image-type presets and the UI constraints;
- the localization pass, which writes every language's `*<lang>.Translation` lines for the
  globalized PPD (`print_one_localization` and the per-section blocks).

It also models `getlangs`, `is_special_option`, `bytelen`, the variant mask that the
command line sets, and `generate_model_ppds`.

The library the code calls is modelled as inputs:

- the printer's parameter descriptions: `ParamDesc`, `Printer`;
- the paper table and the media-size queries: `Library`;
- the resolution probes: `Driver`;
- the message catalogs: `Catalog`, loaded through `load`.

Each emitter is a method that returns the lines it writes. Its `ensures` ties the result to a
specification function, and lemmas prove what the PPD promises about those functions:

- every choice a section declares is translated by the localization pass, in the same order,
  for a driver whose descriptions do not depend on the Quality and Resolution settings (see
  `Document.Printer` under "## Left out");
- the four page tables list the same papers;
- resolution names are unique, and `*DefaultResolution` names a declared choice;
- the name search of the Resolution section either succeeds, or would never succeed.

Modules:

- `Text`: C string helpers and `getlangs`.
- `Ppd`: the data model, the rendered lines, and what they declare, translate and map.
- `Options`: `print_one_option`, `print_one_localization` and `print_group`.
- `OptionKeys`: the choices each option declares and translates.
- `PageSizes`: `print_page_sizes` and its localization.
- `Resolution`: clamping and the name search.
- `Resolutions`: the Resolution section.
- `Sections`: the other fixed sections, the presets and the constraints.
- `Document`: the grouped options, the main pass, the localization pass and `write_ppd`.
- `Variants`: the variant mask and `generate_model_ppds`.

Three places in the code misbehave on some inputs; they are listed under "## Findings". For
each one, the model has a member that follows the code as written, with a lemma exhibiting the
problem, and a corrected member with its intended property proved. `WritePpd`,
`PrintResolution`, `PrintConstraints` and `LocalizeResolution` model the corrected code.

## Model

| member | source | states |
|---|---|---|
| Text.ByteLen | src/cups/genppd.c:1031-1038 | The count is the index of the first NUL: every byte before it is non-NUL. |
| Text.Split | src/cups/genppd.c:990-1001 | The `strchr` loop of `getlangs` yields exactly `SplitAt(s, sep)`, the pieces between separators. |
| Text.SplitJoin | src/cups/genppd.c:990-1001 | Joining the pieces with the separator gives the original string back. |
| Text.SplitCount | src/cups/genppd.c:990-992 | There is one piece more than the string has separators, which is the count the first loop allocates for. |
| Text.SplitPiecesFree | src/cups/genppd.c:996-1001 | No piece contains the separator. |
| Text.LanguageList.GetLangs | src/cups/genppd.c:975-1005 | The list is computed once and kept; every call returns the split of `ALL_LINGUAS` at spaces. |
| Text.LastIndexOf | src/cups/genppd.c:2449 | `strrchr`: None exactly when the character is absent; otherwise its position, with no occurrence after it. |
| Ppd.StepsDistinct | src/cups/genppd.c:1752 | A `for (i = lo; i <= hi; i += step)` loop never visits a value twice. |
| Options.PrintOneOption | src/cups/genppd.c:1538-1767 | `print_one_option` writes `OptionLines` for each parameter type: string list, boolean, double with its fine companion, dimension, integer. |
| Options.EnumerateList | src/cups/genppd.c:1581-1589 | One choice per list entry, in order; an entry other than the default is marked `*?` when colour options are skipped. |
| Options.EnumerateReal | src/cups/genppd.c:1631-1644 | The double grid in steps of 0.1; it reports that the default was offered exactly when the parameter is mandatory and its default is on the grid. |
| Options.PrintFine | src/cups/genppd.c:1659-1677 | The `StpFine` block: "None", then the twenty values 0 to 0.095. |
| Options.PrintOneLocalization | src/cups/genppd.c:1770-1875 | `print_one_localization` writes `LocalizationLines` for each parameter type; the numeric values appear only when numbers are localized. |
| Options.IsSpecialOption | src/cups/genppd.c:1013-1023 | True exactly for the seven names that have their own section (PageSize, MediaType, InputSlot, Resolution, OutputOrder, Quality, Duplex). |
| Options.GroupLabelShape | src/cups/genppd.c:1475-1476 | The group label is at most 39 bytes. It is class, space, level when they total under 39 bytes; without the space at exactly 39; otherwise the first 39 bytes of the two names joined. |
| Options.MakeLabel | src/cups/genppd.c:1472-1476 | `bytelen` and `snprintf(buf, 40, …)` build `GroupLabel`. |
| Options.TranslateGroup | src/cups/genppd.c:1478-1502 | Every language other than C and en that has a catalog gets one translation of the group label, in list order. |
| Options.PrintGroup | src/cups/genppd.c:1464-1504 | `print_group` writes the group line. The translations follow only when the group is opened with language C. |
| Options.PrintGroupOpen | src/cups/genppd.c:1527-1535 | A group opened in the PPD's language, "C" when there is none, with its catalog. |
| Options.PrintGroupClose | src/cups/genppd.c:1511-1519 | A group closed with no language and no catalog, so it gets no translations. |
| OptionKeys.OptionDeclarations | src/cups/genppd.c:1538-1767 | The choices `print_one_option` declares under `Stp<name>` are `Keys(t, d)`, stated per type in closed form. |
| OptionKeys.DefaultDeclared | src/cups/genppd.c:1558-1759 | The choice the `*Default` line names is declared always for booleans and doubles. For a string list, exactly when the parameter is optional or its default is listed. For a dimension, exactly when it is optional, or its default is in range and colour options are not skipped. For an integer, exactly when it is optional, colour options are skipped, or its default is in range. |
| OptionKeys.RealNoneOnce | src/cups/genppd.c:1627-1648 | A double option declares "None" exactly once, as the on-grid default of a mandatory parameter or as the extra entry. |
| OptionKeys.DecimalInRange | src/cups/genppd.c:1752-1757 | An integer's decimal name is among the declared values exactly when it lies in the bounds. |
| OptionKeys.LocalizationTranslations | src/cups/genppd.c:1770-1875 | The choices `print_one_localization` translates under `Stp<name>` are `TranslatedKeys`. |
| OptionKeys.TranslationParity | src/cups/genppd.c:1784-1875 | With numbers localized and the colour filter off, the localization translates exactly the declared choices, in order. The only exception is the "None" of a mandatory double whose default is off the grid, which is declared but not translated. |
| OptionKeys.UnlocalizedNumbers | src/cups/genppd.c:1805-1870 | Without localized numbers, only the synthesized "None" is translated for double and integer options. |
| PageSizes.FillPapers | src/cups/genppd.c:1220-1277 | The first loop fills `the_papers` through `cur` with `StoredPapers`, and notes custom sizes exactly when a "Custom" entry is in the paper table. |
| PageSizes.StorePaper | src/cups/genppd.c:1255-1272 | The stored margins are clamped into the sheet: left is at least 0 and right at most the width. |
| PageSizes.StoredPapersExact | src/cups/genppd.c:1223-1277 | Each stored paper is the stored form of an entry that passes the lookup, "Custom", extended-unit and positive-size filters, and every entry that passes is stored. |
| PageSizes.StoredIndicesExact | src/cups/genppd.c:1223-1277 | The positions of the stored entries are ascending and are exactly the entries that pass. |
| PageSizes.StoredPapersAtIndices | src/cups/genppd.c:1265-1274 | The k-th stored paper is the stored form of the k-th passing entry, so list order is kept. |
| PageSizes.StoredPaperShape | src/cups/genppd.c:1235-1272 | No stored paper is "Custom". Each has a table entry of positive size and the probed sheet size. Left is raised to 0 and right lowered to the width. Bottom and top are clamped, then stored as distances from the top edge. |
| PageSizes.PrintPageSizes | src/cups/genppd.c:1202-1373 | `print_page_sizes` writes `PageSizeLines` from the stored papers and the custom flag. |
| PageSizes.TablesAgree | src/cups/genppd.c:1295-1336 | PageSize, PageRegion, ImageableArea and PaperDimension each list the stored papers, in the same order. |
| PageSizes.CustomMarginsFacts | src/cups/genppd.c:1344-1352 | The custom block's hardware margins are never negative, and each equals the reported margin when that margin already lies inside the sheet. |
| PageSizes.LocalizePageSizes | src/cups/genppd.c:2492-2521 | The localized page sizes: two headings, then a PageSize and a PageRegion translation for each entry its filter keeps. |
| PageSizes.PaperTranslationsCover | src/cups/genppd.c:2498-2520 | Under PageSize and under PageRegion, the translated entries are exactly those the localization filter keeps. |
| PageSizes.StoredAreTranslated | src/cups/genppd.c:1223-1277 | The papers the tables list are exactly the translated entries other than "Custom". |
| Resolution.ClampAxis | src/cups/genppd.c:2270-2275 | The halving loop ends at `Clamp(v, ceiling)`, the first halving within the ceiling. |
| Resolution.ClampProperties | src/cups/genppd.c:2270-2275 | The clamped value is within the ceiling, and equals the input when that is already within it. It is the first value of the halving chain within the ceiling, and stays positive for a positive input. |
| Resolution.ResNameShape | src/cups/genppd.c:2278-2281 | The name is "<x>dpi" exactly when both axes agree, and "<x>x<y>dpi" otherwise. |
| Resolution.ResNameInjective | src/cups/genppd.c:2278-2281 | Distinct pairs get distinct names. |
| Resolution.NextTieBreak | src/cups/genppd.c:2289-2298 | After a collision exactly one axis changes: y grows while it is the larger axis and below its ceiling; else x grows below its ceiling; else x is halved. The ceilings are kept. |
| Resolution.Disambiguate | src/cups/genppd.c:2276-2299 | The search succeeds exactly when `Settle` does within `SearchBound`. The found pair is within the ceilings and its name is free unless the option is exempt. |
| Resolution.SettleFails | src/cups/genppd.c:2276-2299 | A search without exemption fails exactly when every examined candidate's name is taken. |
| Resolution.ExhaustionIsPermanent | src/cups/genppd.c:2276-2299 | When the bounded search fails, no number of further candidates succeeds, so the code's loop would never end. |
| Resolution.RoomMeansSuccess | src/cups/genppd.c:2276-2299 | With fewer than 751 names in use, the search always finds a free name. |
| Resolution.CycleFold | src/cups/genppd.c:2289-2298 | Once x reaches its ceiling, the candidates repeat with period 751. |
| Resolutions.PrintResolution | src/cups/genppd.c:2178-2313 | The corrected code: the section is `ResolutionSection`, with the no-Quality default's name clamped before it is reserved. |
| Resolutions.ReserveName | src/cups/genppd.c:2204-2252 | The name reserved before the loop. With a Quality parameter it is the automatic name; otherwise, in the corrected code, the default's clamped name. |
| Resolutions.EnumerateResolutions | src/cups/genppd.c:2256-2306 | The option loop yields `Entries` and every entry's lines, or fails when a name search exhausts. |
| Resolutions.ResolveEntry | src/cups/genppd.c:2258-2300 | One option: skipped without a pair, otherwise clamped and searched against the names taken. |
| Resolutions.EntriesKept | src/cups/genppd.c:2264-2267 | Exactly the options with a pair get a choice, in order. |
| Resolutions.EntriesWellFormed | src/cups/genppd.c:2256-2306 | Each entry keeps its option's name, text, position and driver pair, and its name comes from a pair within the ceilings. |
| Resolutions.EntriesDistinct | src/cups/genppd.c:2282-2288 | With a Quality parameter, or with the reserved name clamped and the default listed at most once, no two entries share a name. |
| Resolutions.DefaultEntryNamed | src/cups/genppd.c:2282-2284 | Without a Quality parameter, the default option, when it has a pair, takes the reserved name. |
| Resolutions.AllEntryLinesMap | src/cups/genppd.c:2304-2305 | A `StpResolutionMap` line is written for exactly the entries whose name differs from their option's. |
| Resolutions.AutomaticNameShape | src/cups/genppd.c:2213-2227 | The automatic name is "(t+1)x(t)dpi", for the smaller clamped axis t of the quality default's pair; it is never square. |
| Resolutions.AutomaticDeclares | src/cups/genppd.c:2228-2234 | The automatic choice is declared under its name and mapped to "None". |
| Resolutions.SectionDeclarations | src/cups/genppd.c:2204-2306 | The section declares the automatic name, when there is a Quality parameter, then every entry's name in order. |
| Resolutions.ResolutionNamesUnique | src/cups/genppd.c:2178-2313 | The corrected code declares no resolution name twice, with a Quality parameter or when the default is listed at most once. |
| Resolutions.ResolutionDefaultDeclared | src/cups/genppd.c:2204-2252 | In the corrected code, the `*DefaultResolution` name is declared: as the automatic choice, or by the default option when it is listed with a pair. |
| Resolutions.DefaultSeedUnclamped | src/cups/genppd.c:2236-2252 | As written, with options A = 1500x720 and default D = 3000x720 and no Quality parameter, "1500x720dpi" is declared twice and the default name "3000x720dpi" by no choice. |
| Resolutions.LocalizeResolution | src/cups/genppd.c:2612-2628 | The corrected code: the localized block, with the automatic choice translated only when the main pass named one. |
| Resolutions.LocResolutionAgrees | src/cups/genppd.c:2612-2628 | The block as written is defined exactly unless a Quality parameter meets an unset automatic name, and where defined it equals the corrected block. |
| Resolutions.UnsetAutomaticName | src/cups/genppd.c:2615-2620 | With a Quality parameter and an inactive Resolution parameter, the main pass names no automatic choice, yet the code as written formats one. |
| Resolutions.ResolutionParity | src/cups/genppd.c:2612-2628 | Every resolution name the main pass declares is translated, in order, and nothing else is. |
| Sections.EnumerateCoded | src/cups/genppd.c:2076-2082 | The MediaType and InputSlot loops write `CodedChoices`, one choice per entry, masked as in `print_one_option`. |
| Sections.PrintPickOne | src/cups/genppd.c:2055-2084 | A MediaType or InputSlot section is written for an active, non-empty string list only. |
| Sections.PickOneParity | src/cups/genppd.c:2557-2590 | MediaType and InputSlot declare exactly the driver's entries, and the localization pass translates exactly those. |
| Sections.QualityDpi | src/cups/genppd.c:2153-2164 | A quality value selects the driver's resolution for it, or the Resolution default's when the driver cannot tell. |
| Sections.QualityChoiceAt | src/cups/genppd.c:2150-2168 | The k-th quality choice carries that resolution and row feed k + 1. |
| Sections.PrintQuality | src/cups/genppd.c:2126-2171 | The Quality section. Its hint is "radiobuttons" above three values, and its fields print the parameter type where the class belongs. |
| Sections.QualityParity | src/cups/genppd.c:2596-2606 | Every quality value is declared in order and translated in order. |
| Sections.OutputOrderChoices | src/cups/genppd.c:2316-2327 | OutputOrder declares Normal and Reverse whatever the default, and both are translated. |
| Sections.PrintDuplex | src/cups/genppd.c:2337-2366 | The Duplex section writes only the entries named None, DuplexNoTumble or DuplexTumble, each with its page-device code. |
| Sections.DuplexParity | src/cups/genppd.c:2651-2670 | Duplex declares the driver's entries that are one of the three known modes, in order, and translates exactly those. |
| Sections.ShrinkChoices | src/cups/genppd.c:2370-2378 | Shrink, Crop and Expand are declared and translated, and the default is one of them. |
| Sections.ImageTypePresets | src/cups/genppd.c:2418-2434 | Every image type other than "None" becomes a preset, in the main and the localized lines; "None" never does. |
| Sections.ConstraintUnderrun | src/cups/genppd.c:2449-2452 | As written, the text "*Duplex" makes `opt2[-1] = 0` write before the copied buffer. |
| Sections.ConstraintAgrees | src/cups/genppd.c:2447-2454 | The code as written is undefined exactly when the text's last '*' is its first character; otherwise it writes what the corrected form writes. |
| Sections.ConstraintShape | src/cups/genppd.c:2447-2454 | A constraint writes two lines exactly when its text has a '*' after its first character, and none otherwise. The halves are the text before the character preceding the last '*', and the text from that '*' on, written in both orders. |
| Sections.PrintConstraints | src/cups/genppd.c:2436-2461 | The corrected code: the constraints section, with a text whose only '*' comes first writing nothing. |
| Sections.ConstraintsCount | src/cups/genppd.c:2444-2456 | The section holds two lines per constraint that has a second option. |
| Sections.ColorModelTranslations | src/cups/genppd.c:2531-2551 | Gray and Black are translated, and RGB, CMY, CMYK and KCMY exactly for a colour printer. |
| Document.ListedExactly | src/cups/genppd.c:2383-2404 | A parameter is written as a generic option exactly when it is eligible: of a listed class and level, not special, writable, of a printable type and active. |
| Document.SimplifiedListsBasic | src/cups/genppd.c:1951-1952 | The simplified PPD lists only Basic parameters; the other two variants list the same ones. |
| Document.BucketOpensGroup | src/cups/genppd.c:2387-2415 | A group is opened and closed only around a class and level with something to write. |
| Document.PrintBucketOptions | src/cups/genppd.c:2389-2408 | The group opens before the first parameter written, and the options are those of the bucket in list order. |
| Document.PrintOptionGroups | src/cups/genppd.c:2383-2416 | The loops over classes and levels write `ClassLines` up to the variant's deepest level. |
| Document.LocalizeOptions | src/cups/genppd.c:2680-2704 | The localized options are the same parameters in the same order as the main pass, without groups. |
| Document.WriteMainPass | src/cups/genppd.c:2044-2461 | The corrected code: the main pass is the front sections, the groups and the back sections; None exactly when a Resolution name search exhausts. |
| Document.FrontQualityTranslations | src/cups/genppd.c:2492-2606 | Up to the Quality block, the localization pass translates under StpQuality exactly the values the main pass declares there. |
| Document.LocalizedExactly | src/cups/genppd.c:2472-2481 | A language gets a block exactly when it is in the list, is neither C nor en, and has a catalog. |
| Document.LocalizeAll | src/cups/genppd.c:2472-2723 | The loop over the languages writes `LocalizationPass`. |
| Document.PassIsBlocks | src/cups/genppd.c:2472-2723 | The localization pass is the blocks of the languages that get one, in list order, each with its catalog. |
| Document.WritePpd | src/cups/genppd.c:1925-2740 | The corrected code: `write_ppd` writes `PpdLines`, the main pass followed, for the globalized PPD, by the localization pass. |
| Document.PpdAssembled | src/cups/genppd.c:2463-2723 | The document is the main pass, then the localization pass only when no language is given. |
| Variants.GenerateModelPpds | src/cups/genppd.c:656-669 | It attempts the requested variants in order up to the first that fails, and returns 1 exactly when a requested variant fails. |
| Variants.RequestedExactly | src/cups/genppd.c:656-669 | A variant is written exactly when its bit is set, once, in the order simplified, standard, without colour options. |
| Variants.HighBitsIgnored | src/cups/genppd.c:656-669 | Only the three low bits of the mask matter. |
| Variants.AttemptedPrefix | src/cups/genppd.c:656-669 | The attempted variants are a prefix of the requested ones. All but the last succeeded; the last fails when any requested variant fails; otherwise all are attempted. |
| Variants.OptionsSelect | src/cups/genppd.c:519-524 | With no option only the standard PPD is generated; `-s` gives the simplified one; `-a` gives the simplified and the standard ones. |
| Variants.NoColorAdded | src/cups/genppd.c:525-527 | `-C` adds the variant without colour options and keeps the others. |

## Left out

- Document.FrontLines: leaves out the main-pass ColorModel and StpColorPrecision sections that
  `print_color_setup` writes (genppd.c:1376-1462, called at 2050). They print CUPS colour-space
  and colour-order codes from the CUPS raster header, which is not part of this model. Their
  localized counterpart is modelled (`Sections.ColorModelTranslations`).
- PageSizes.FillPapers: an entry the paper table does not know is skipped silently. The
  "Unable to lookup size %s!" message that genppd.c:1229-1233 prints to standard output is
  I/O and is left out.
- Ppd.RealBounds: double bounds and defaults are held as integer thousandths. So the C
  truncation of `lower * 1000` to an int (genppd.c:1631, 1808) is not modelled, and neither is
  the floating comparison `deflt.dbl * 1000 == i` (1634, 1811). The model compares exact
  thousandths, and the `%.3f` text of a value is a decimal rendering of those thousandths.
- Options.PrintOneOption: the "%.1f mm" label of a dimension value is the parameter `mm`,
  about which nothing is assumed. Floating-point formatting and the 255-byte truncation of
  `dimstr` (genppd.c:1708-1709, 1847-1848) are not modelled.
- Document.PpdLines: when a Resolution name search exhausts every candidate, the model returns
  None. The code's do-while (genppd.c:2276-2299) would loop forever.
  `Resolution.ExhaustionIsPermanent` shows that no further candidate could succeed, and
  `Resolution.RoomMeansSuccess` shows that this needs 751 names in use.
- Document.WritePpd: leaves out several things `write_ppd` also writes or reads:
  - the header (`print_ppd_header`, `print_ppd_header_2`, `print_ppd_header_3`);
  - the PrintingMode probe and its ColorDevice/DefaultColorSpace lines (genppd.c:1982-1999).
    The model takes the result as `Printer.isColor`.
  - the NativeCopies probe and its cupsManualCopies line (2002-2011);
  - the Apple colour-matching lines (2020-2027);
  - the standard fonts (`print_standard_fonts`) and the closing comment (2735-2736).
  These are fixed text or direct library queries that carry none of the properties above.
- Document.Printer: each parameter is described once, and both passes read that one
  description. The code describes PageSize, MediaType, InputSlot and Quality again in the
  localization pass (genppd.c:2492, 2557, 2576, 2596). By then it has cleared the Quality
  setting (2172, 2212, 2255) and the Resolution setting (2136, 2207, 2309) that the main pass
  described them under (1970-1978, 1215, 2056, 2092, 2128). The Quality default that names the
  automatic resolution also comes from a fresh description (2208), and the model takes it from
  `Printer.quality`. So `Sections.PickOneParity`, `Sections.QualityParity`,
  `Document.FrontQualityTranslations`, `PageSizes.StoredAreTranslated`,
  `PageSizes.PaperTranslationsCover` and `Resolutions.ResolutionParity` are proved on the
  assumption that the driver describes these parameters the same way whatever Quality and
  Resolution are set to. A driver whose descriptions depend on those settings is not modelled.
- Document.WellFormed: the model requires the driver to describe PageSize as a string list.
  `print_page_sizes` reads `desc.bounds.str` without checking the type, so otherwise its
  behaviour depends on memory the model does not have.
- Variants.GenerateModelPpds: `generate_ppd` opens, writes, compresses and closes a file
  (genppd.c:677-776). It is the parameter `fails`, which says which calls return non-zero.
- `main`, `cat_ppd`, `list_ppds`, `help`, `usage`, `printlangs` and `printmodels` are
  command-line and CUPS-driver-interface plumbing. Only the `-s`, `-a` and `-C` options that
  set the variant mask are modelled (`Variants.ApplyOption`). `-N` becomes the `ln`
  (localize numbers) parameter.
- The `gpFile` layer (`gpopen`, `gpputs`, `gpprintf`, `gpclose`): output is a sequence of
  lines, and the growth of the formatting buffer and compressed output are I/O.
- `stp_i18n_load` is the parameter `load`; `stp_i18n_lookup` is `Ppd.Tr`, a catalog lookup
  that falls back to the key. Catalogs are assumed to hold C strings with no NUL.
- Strings are byte strings, one `char` per C byte. No character-set conversion is modelled.

## Findings

| source | as written | input that shows it | evidently intended | confidence | as-written member | corrected member |
|---|---|---|---|---|---|---|
| src/cups/genppd.c:2236-2252 | Without a Quality parameter, the name reserved for `*DefaultResolution` is built from the default's pair before clamping. The option loop names every option from its clamped pair, and exempts the default from the collision check. | Options A = 1500x720 dpi and default D = 3000x720 dpi, with no Quality parameter. A takes "1500x720dpi", and so does the exempt D, so two choices share a name. `*DefaultResolution: 3000x720dpi` names no choice. | Reserve the default's clamped name, so the default option takes the name `*DefaultResolution` gives and no other option can take it. | not executed | Resolutions.DefaultSeedUnclamped (on `ResolutionSectionAsWritten`) | Resolutions.ResolutionNamesUnique and Resolutions.ResolutionDefaultDeclared (on `ResolutionSection`) |
| src/cups/genppd.c:2449-2454 | A constraint text is cut at its last '*' with `opt2[-1] = 0`. | The text "*Duplex": `strrchr` returns the start of the copy, and `opt2[-1]` writes one byte before it. | A text whose only '*' opens it has no second option and writes nothing. | not executed | Sections.ConstraintUnderrun (on `ConstraintAsWritten`) | Sections.ConstraintShape (on `Constraint`) |
| src/cups/genppd.c:2615-2620 | With a Quality parameter, the localization pass formats `default_resolution` as the automatic choice. That pointer is set only inside the main pass's active Resolution branch (2228). | A Quality parameter together with an inactive Resolution parameter at the Basic level: the main pass writes no Resolution section, and the localization pass formats an unset `default_resolution`. | Translate the automatic choice only when the main pass named one. | not executed | Resolutions.UnsetAutomaticName (on `LocResolutionAsWritten`) | Resolutions.ResolutionParity (on `LocResolution`) |

Notes on what genppd.c does:

- the Resolution section enumerates every driver resolution even when there is a Quality
  parameter (genppd.c:2256-2306);
- a constraint's first operand loses the character before the last '*', and the second keeps
  the '*', because the split is `opt2[-1] = 0` (genppd.c:2449-2454);
- Quality and Resolution use radio buttons above three values, and a dropdown otherwise: the
  hint tests are `num_opts > 3` (genppd.c:2140, 2196).
