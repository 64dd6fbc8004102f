# v2-samplesheet-maker core, modelled in Dafny

This project models the core of `v2-samplesheet-maker`, a tool that turns a JSON
description of an Illumina run into a version-2 `SampleSheet.csv` (and back) and derives
a `RunInfo` document from a samplesheet. The model covers:

- the naming rules that map an input section name such as `Cloud_TSO500L_Settings` to its
  stripped name, its cloud flag and its section class (`Text`, `SectionNames`, `Registry`);
- the processing order of input sections, a stable sort on each name's position in the
  import order, with `Cloud_Settings` and `Cloud_Data` last (`StableSort`, `SectionNames`);
- the `SampleSheet` object (`SampleSheets`): the loop that builds each section and stores it
  in its `*_section` attribute, the harvest of pipeline URNs from cloud and BCLConvert
  settings, their injection into `Cloud_Settings`, the synthesis of a `Cloud_Data` section
  from the last marked data section, `section_list` and the joining of the section texts
  in `to_csv`;
- the section base classes (`SuperSections`): `filter_dict`, the key-value and table
  renderings, the unused-keyword warnings;
- both generations of section classes and their models: the older
  `classes/sections.py` family (`LegacyModels`, `LegacySections`) and the newer
  per-tool models (`BclConvertModels`, `CloudModels`, `TSO500LModels`, `TSO500SModels`,
  `RunInfoModels`), each with its field validation, its `to_dict` / `to_json` renderings
  and, for data rows, the derived cloud-data row;
- the field coercions of the validation library, written out per field type (`Values`,
  `Enums`), and the case conversions between `PascalCase`, `snake_case` and
  `Upper_Snake_Case` (`CaseConversion`);
- the samplesheet reader's grouping of lines into sections and its post-fixes
  (`SampleSheetReader`);
- the derivation of the `Run` element of `RunInfo` from a samplesheet (`RunInfoJson`) and
  the completion of a minimal `RunInfo` input from its run id (`RunInfoWriter`).

Python dictionaries are ordered lists of key/value pairs (`Dicts`), Python values are the
`Value` datatype, and every exception the source raises is an `Err` of a `Result`.
Operations that work step by step in the source are methods with loops, each proved
against a function that specifies it; the properties are proved about those functions.

## Model

| member | source | states |
|---|---|---|
| CaseConversion.PascalCaseToSnakeCase | src/v2_samplesheet_maker/utils/__init__.py:3-60 | the loop's result is the acronym rewrites, then the underscore deletion, then the per-character lower-casing with `_` before each later capital, then the digit post-fixes; the result never holds an upper-case letter |
| CaseConversion.JoinSplitRemoves | src/v2_samplesheet_maker/utils/__init__.py:35 | `"".join(s.split("_"))` is `s` with every underscore deleted |
| CaseConversion.RemoveFromFacts | src/v2_samplesheet_maker/utils/__init__.py:35 | after the deletion no `_` is left, no other character is introduced, and a string without `_` is unchanged |
| CaseConversion.RemoveAppend | src/v2_samplesheet_maker/utils/__init__.py:35 | deleting underscores distributes over concatenation |
| CaseConversion.UnderscoredNoUpper | src/v2_samplesheet_maker/utils/__init__.py:37-41 | the character loop emits no upper-case letter |
| CaseConversion.UnderscoredIsLowerPlusUnderscores | src/v2_samplesheet_maker/utils/__init__.py:37-41 | on input without `_`, the loop's output with its underscores deleted is exactly the lower-cased input: the loop only lower-cases and inserts `_` |
| CaseConversion.UnderscoredConcat | src/v2_samplesheet_maker/utils/__init__.py:37-41 | the loop on `a + b` is the loop on `a`, then `_` if `b` opens with a capital, then the loop on `b` |
| CaseConversion.PascalToSnakeNoUpper | src/v2_samplesheet_maker/utils/__init__.py:3-60 | a converted name never contains an upper-case letter |
| CaseConversion.PostReplacedNoUpper | src/v2_samplesheet_maker/utils/__init__.py:43-58 | the digit post-fixes keep a lower-case string lower-case |
| CaseConversion.ReplaceKeepsNoUpper | src/v2_samplesheet_maker/utils/__init__.py:43-58 | one `replace` with a lower-case replacement keeps a lower-case string lower-case |
| CaseConversion.TitleFirst | src/v2_samplesheet_maker/utils/__init__.py:72 | `part[0].title() + part[1:]` fails with an index error exactly on the empty part, and otherwise upper-cases only the first character |
| CaseConversion.TitleParts | src/v2_samplesheet_maker/utils/__init__.py:69-76 | mapping over the parts fails exactly when some part is empty, and otherwise keeps the number of parts and styles each one |
| CaseConversion.SnakeToUpperSnake | src/v2_samplesheet_maker/utils/__init__.py:63-81 | fails exactly when the styling of the parts fails; otherwise the styled join with `Tso500l` rewritten to `TSO500L` |
| CaseConversion.UpperSnakeFailsOnEmptyPart | src/v2_samplesheet_maker/utils/__init__.py:69-76 | the conversion fails, with an index error, exactly on the empty string, a leading or trailing `_`, or a doubled `_` |
| CaseConversion.SplitHasEmptyPart | src/v2_samplesheet_maker/utils/__init__.py:73 | `split("_")` yields an empty part exactly for the empty string, a leading or trailing `_`, or a doubled `_` |
| CaseConversion.SplitFirstPiece | src/v2_samplesheet_maker/utils/__init__.py:73 | the first part is empty exactly when the string is empty or starts with `_` |
| CaseConversion.SplitLaterPieces | src/v2_samplesheet_maker/utils/__init__.py:73 | a later part is empty exactly when the string ends in `_` or holds `__` |
| CaseConversion.TitledJoinKeepsParts | src/v2_samplesheet_maker/utils/__init__.py:69-76 | splitting the styled result again gives as many parts as the input, each of the same length, with only the first character upper-cased |
| CaseConversionExamples.TrimUmiExample | src/v2_samplesheet_maker/utils/__init__.py:7 | `TrimUMI` converts to `trim_umi` |
| CaseConversionExamples.SampleIdExample | src/v2_samplesheet_maker/utils/__init__.py:8 | `Sample_ID` converts to `sample_id` |
| CaseConversionExamples.IndexIdExample | src/v2_samplesheet_maker/utils/__init__.py:10 | `Index_ID` converts to `index_id` |
| CaseConversionExamples.BclConvertSettingsExample | src/v2_samplesheet_maker/utils/__init__.py:15 | `BCLConvert_Settings` converts to `bclconvert_settings` |
| CaseConversionExamples.TSO500LSettingsExample | src/v2_samplesheet_maker/utils/__init__.py:16 | `TSO500L_Settings` converts to `tso500l_settings` |
| CaseConversionExamples.Read1CyclesExample | src/v2_samplesheet_maker/utils/__init__.py:19 | `Read1Cycles` converts to `read_1_cycles` |
| CaseConversionExamples.PostReplacedNoDigit | src/v2_samplesheet_maker/utils/__init__.py:43-58 | a name without the digits `1` and `2` is left alone by every post-fix |
| CaseConversionExamples.PreReplacedAbsent | src/v2_samplesheet_maker/utils/__init__.py:23-32 | a name lacking a letter of each acronym is left alone by the rewrites |
| CaseConversionExamples.CloudPipelineExample | src/v2_samplesheet_maker/utils/__init__.py:65 | `cloud_tso500l_pipeline` converts to `Cloud_TSO500L_Pipeline` |
| Enums.ParseAdapterBehaviour | src/v2_samplesheet_maker/enums.py:4-6 | a string names an adapter behaviour exactly when it is `trim` or `mask`, and the member found has that value |
| Enums.ParseFastqCompressionFormat | src/v2_samplesheet_maker/enums.py:9-12 | a string names a compression format exactly when it is `gzip`, `dragen` or `dragen-interleaved`, and the member found has that value |
| Enums.ParseTSO500LSampleType | src/v2_samplesheet_maker/enums.py:15-16 | only `DNA` names a TSO500L sample type |
| Enums.ValuesAreDistinct | src/v2_samplesheet_maker/enums.py:4-12 | members of one enum have distinct values, and looking up a member's value gives that member back |
| Enums.ParseSampleTypeInverse | src/v2_samplesheet_maker/enums.py:15-16 | looking up the sample type's value gives it back |
| Enums.TramIsRejected | tests/v2_samplesheet_maker/classes/test_sections.py:122-141 | `tram`, `TRIM` and `dna` are not enum values: the lookup is by exact value |
| Enums.OptAdapterBehaviour | src/v2_samplesheet_maker/models/sections.py:33 | an `Optional[AdapterBehaviour]` field accepts None or a member's value and rejects everything else with a schema error |
| Enums.OptFastqCompressionFormat | src/v2_samplesheet_maker/models/sections.py:46 | an `Optional[FastqCompressionFormat]` field accepts None or a member's value and rejects everything else |
| Enums.ReqTSO500LSampleType | src/v2_samplesheet_maker/models/tso500l_sections.py:32 | a required sample type accepts only the string `DNA`; None is rejected |
| Enums.OptAdapterBehaviourRoundTrip | src/v2_samplesheet_maker/models/bcl_convert_sections.py:39-58 | an adapter behaviour written out by its value and validated again is unchanged |
| Values.OptStr | src/v2_samplesheet_maker/models/sections.py:17-20 | an `Optional[str]` field accepts exactly None and strings, keeping the string; anything else is a schema error |
| Values.ReqStr | src/v2_samplesheet_maker/models/sections.py:53 | a `str` field accepts exactly a string; None fails |
| Values.OptInt | src/v2_samplesheet_maker/models/sections.py:16 | an `Optional[int]` field accepts None and integer-like values, keeping an integer as it is |
| Values.ReqInt | src/v2_samplesheet_maker/models/sections.py:25 | an `int` field accepts only integer-like values; None fails |
| Values.OptBool | src/v2_samplesheet_maker/models/sections.py:43-45 | an `Optional[bool]` field accepts None and bool-like values, keeping a bool as it is |
| Values.OptFloat | src/v2_samplesheet_maker/models/sections.py:36 | an `Optional[float]` field accepts None and float-like values, keeping a float's text |
| Values.OptList | src/v2_samplesheet_maker/models/sections.py:48 | an `Optional[List]` field accepts exactly None and lists, keeping the items |
| Values.OptStrRoundTrip | src/v2_samplesheet_maker/models/sections.py:17-20 | a validated optional string written back and validated again is unchanged |
| Values.OptIntRoundTrip | src/v2_samplesheet_maker/models/sections.py:16 | the same for an optional integer |
| Values.OptFloatRoundTrip | src/v2_samplesheet_maker/models/sections.py:36 | the same for an optional float |
| Values.OptBoolRoundTrip | src/v2_samplesheet_maker/models/sections.py:43-45 | the same for an optional bool |
| Values.OptIntOfWholeFloat | src/v2_samplesheet_maker/models/sections.py:16 | an integer field takes a float whose fractional part is zero, written as `str(i) + ".0"`, as the integer `i`, for every `i` |
| Values.ReqIntOfScientificFloat | src/v2_samplesheet_maker/models/sections.py:25 | an integer field takes a float in scientific notation with a fraction, such as `1.5e+17`, when the exponent covers the fraction digits: the digits on both sides of the point followed by the zeros the exponent leaves |
| Values.ReqIntOfExponentFloat | src/v2_samplesheet_maker/models/sections.py:25 | an integer field takes a float in scientific notation without a fraction, such as `1e+16`, as the digits followed by as many zeros as the exponent says |
| Values.OptIntRefusesFractions | src/v2_samplesheet_maker/models/sections.py:16 | an integer field rejects a float with a non-zero fraction digit, `inf`, `-inf`, `nan` and a negative exponent such as `1e-05` |
| Values.OptIntRejectsWord | src/v2_samplesheet_maker/models/sections.py:54 | an integer field rejects the string `one` |
| SectionNames.StrippedSectionName | src/v2_samplesheet_maker/classes/samplesheet.py:37-50 | the result is lower-case and a suffix of the lowered name; `cloud_settings` and `cloud_data` are kept whole, any other name loses its whole leading run of the characters {c, l, o, u, d, _} |
| SectionNames.CloudNameLosesPrefix | src/v2_samplesheet_maker/classes/samplesheet.py:37-65 | a cloud-flagged name loses at least its six-character `cloud_` prefix |
| SectionNames.PlainNameIsLowered | src/v2_samplesheet_maker/classes/samplesheet.py:37-65 | a name not opening with one of {c, l, o, u, d, _} is only lowered, and is not cloud-flagged |
| SectionNames.CloudPrefixedName | src/v2_samplesheet_maker/classes/samplesheet.py:37-65 | `Cloud_<t>` strips to the lowered `t` and is cloud-flagged, when `t` does not open with one of the stripped characters |
| SectionNames.ResolveByPrefix | src/v2_samplesheet_maker/classes/samplesheet.py:170-181 | a name lowering to a registered header resolves as the local lookup, and the same name behind `Cloud_` as the cloud lookup |
| SectionNames.ResolveTSO500LSettings | src/v2_samplesheet_maker/classes/samplesheet.py:170-181 | `TSO500L_Settings` resolves to the local class and `Cloud_TSO500L_Settings` to the cloud class, in any letter case |
| SectionNames.ResolveTSO500LData | src/v2_samplesheet_maker/classes/samplesheet.py:170-181 | `TSO500L_Data` and `Cloud_TSO500L_Data` likewise |
| SectionNames.ResolveLocalOnly | src/v2_samplesheet_maker/classes/samplesheet.py:170-184 | a section without a cloud class resolves by its own name, and behind `Cloud_` resolves to nothing, so the construction fails |
| SectionNames.ResolveCloudSettings | src/v2_samplesheet_maker/classes/samplesheet.py:44-65 | `Cloud_Settings` keeps its prefix, is not cloud-flagged and names the Cloud_Settings class |
| SectionNames.ResolveCloudData | src/v2_samplesheet_maker/classes/samplesheet.py:44-65 | `Cloud_Data` likewise names the Cloud_Data class |
| SectionNames.SortKey | src/v2_samplesheet_maker/classes/samplesheet.py:112-123 | a name's sort key exists exactly when its stripped name is an import header, and is the position of that header; otherwise the name is unknown |
| SectionNames.Tag | src/v2_samplesheet_maker/classes/samplesheet.py:115-123 | a section gets a key exactly when its name has a sort key |
| SectionNames.Tagged | src/v2_samplesheet_maker/classes/samplesheet.py:115-123 | every section gets its key, or some section's stripped name is not an import header and the sort raises |
| SectionNames.TaggedKeys | src/v2_samplesheet_maker/classes/samplesheet.py:115-123 | each tag is its section's own key, below the number of headers |
| SectionNames.ImportOrderPermutes | src/v2_samplesheet_maker/classes/samplesheet.py:115-124 | sorting the sections neither loses nor duplicates one |
| SectionNames.ImportOrderSorted | src/v2_samplesheet_maker/classes/samplesheet.py:115-124 | after sorting, the sort keys never decrease |
| SectionNames.ImportOrderStable | src/v2_samplesheet_maker/classes/samplesheet.py:115-124 | sections with the same key keep their input order (Python's sort is stable) |
| SectionNames.CloudSettingsProcessedLast | src/v2_samplesheet_maker/classes/samplesheet.py:91-104 | after `Cloud_Settings` come only `Cloud_Settings` and `Cloud_Data` sections |
| Registry.CloudVariants | src/v2_samplesheet_maker/section_classes/tso500l_sections.py:33-34 | a cloud class differs from its local parent by the flag alone: same header and same shape |
| Registry.RegisteredIsListed | src/v2_samplesheet_maker/classes/samplesheet.py:73-89 | a kind is registered exactly when it is one of the eleven classes listed |
| Registry.ImportSectionsOrderIsDerived | src/v2_samplesheet_maker/classes/samplesheet.py:94-104 | the import order is the listed classes without Cloud_Settings and Cloud_Data, followed by those two |
| Registry.ImportSectionsOrderMembers | src/v2_samplesheet_maker/classes/samplesheet.py:94-104 | the import order holds exactly the registered kinds |
| Registry.WithoutCloudPair | src/v2_samplesheet_maker/classes/samplesheet.py:95-100 | the filtered list is no longer than its input and holds neither Cloud_Settings nor Cloud_Data |
| Registry.SlotNamesDistinct | src/v2_samplesheet_maker/classes/samplesheet.py:126-141 | the nine `*_section` attributes have distinct names |
| Registry.SlotIndex | src/v2_samplesheet_maker/classes/samplesheet.py:201-204 | each registered kind is stored in the attribute of its local kind, so local and cloud TSO500L share one attribute |
| Registry.SlotNameAgrees | src/v2_samplesheet_maker/classes/samplesheet.py:202-204 | the attribute a kind is stored in is named `<lower header>_section` |
| Registry.RegistryIndex | src/v2_samplesheet_maker/classes/samplesheet.py:248 | `_all_sections.index` of a registered kind finds its first and only position |
| Registry.SlotOrderIsRegistryOrder | src/v2_samplesheet_maker/classes/samplesheet.py:239-251 | the attributes' creation order agrees with the order of `_all_sections` |
| Registry.FirstMatch | src/v2_samplesheet_maker/classes/samplesheet.py:173-181 | the first class matching the stripped name and cloud flag, or none when no class matches |
| Registry.Lookup | src/v2_samplesheet_maker/classes/samplesheet.py:173-181 | a found class is registered, with the lowered header and cloud flag asked for |
| Registry.RegistryKeysDistinct | src/v2_samplesheet_maker/classes/samplesheet.py:73-89 | no two registered classes share header and cloud flag, so the lookup is unambiguous |
| Registry.LookupIff | src/v2_samplesheet_maker/classes/samplesheet.py:173-184 | the lookup finds a class exactly when that class is registered with the asked header and flag |
| Registry.LookupTSO500LSettingsByFlag | src/v2_samplesheet_maker/section_classes/tso500l_sections.py:20-34 | the TSO500L settings header finds the local class without the flag and the cloud class with it |
| Registry.LookupTSO500LDataByFlag | src/v2_samplesheet_maker/section_classes/tso500l_sections.py:46-60 | the same for the TSO500L data header |
| Registry.LookupLocalOnly | src/v2_samplesheet_maker/classes/samplesheet.py:173-184 | a local-only class is found without the flag and nothing is found with it |
| Registry.LookupNeverTSO500S | src/v2_samplesheet_maker/classes/samplesheet.py:73-89 | the TSO500S classes are not registered, so no name reaches them |
| Registry.ImportHeadersEndWithCloudPair | src/v2_samplesheet_maker/classes/samplesheet.py:94-104 | the eleven import headers end with `cloud_settings` and `cloud_data`, which appear nowhere earlier |
| Registry.CloudSectionsSortLast | src/v2_samplesheet_maker/classes/samplesheet.py:91-123 | `cloud_settings` and `cloud_data` take the keys 9 and 10, and every other header a smaller key |
| SuperSections.FilterDict | src/v2_samplesheet_maker/classes/super_sections.py:71-83 | `filter_dict` keeps at most as many entries as it is given |
| SuperSections.FilterDictMembers | src/v2_samplesheet_maker/classes/super_sections.py:71-83 | an entry survives exactly when it was in the input with a value other than None |
| SuperSections.FilterDictAppend | src/v2_samplesheet_maker/classes/super_sections.py:71-83 | filtering distributes over concatenation, so insertion order is kept |
| SuperSections.FilterDictIdempotent | src/v2_samplesheet_maker/classes/super_sections.py:71-83 | filtering twice is filtering once |
| SuperSections.FilterDictKeys | src/v2_samplesheet_maker/classes/super_sections.py:71-83 | no key is added, keys stay distinct, and a key maps to its old value exactly when that value was not None |
| SuperSections.FilterGet | src/v2_samplesheet_maker/classes/super_sections.py:71-83 | the lookup of any key after filtering is the old value if it was not None, and missing otherwise |
| SuperSections.FilterDictTable | src/v2_samplesheet_maker/classes/super_sections.py:71-83 | the filtered dict is a subsequence of the input, entries and keys, and each input key maps to its value or is gone when that value was None |
| SuperSections.FilterDictKeyed | src/v2_samplesheet_maker/classes/super_sections.py:71-83 | over a fixed key table the filtered keys keep the table's order |
| SuperSections.KvToString | src/v2_samplesheet_maker/classes/super_sections.py:85-94 | the text always ends with a newline, and is just a newline for an empty dict |
| SuperSections.KvToStringLines | src/v2_samplesheet_maker/classes/super_sections.py:85-94 | split at newlines, the text is one `key,str(value)` line per entry in order, then the empty rest after the last newline |
| SuperSections.TerminatedLines | src/v2_samplesheet_maker/classes/super_sections.py:87-94 | joining newline-free lines with newlines and a final newline splits back into those lines and an empty rest |
| SuperSections.CellText | src/v2_samplesheet_maker/classes/super_sections.py:128-133 | a None cell is written empty and any other cell as its `str` |
| SuperSections.TableLines | src/v2_samplesheet_maker/classes/super_sections.py:128-133 | one header line and one line per row |
| SuperSections.TableToString | src/v2_samplesheet_maker/classes/super_sections.py:128-133 | the csv text ends with the `\n` line terminator |
| SuperSections.QuoteField | src/v2_samplesheet_maker/classes/super_sections.py:128-133 | the csv module's minimal quoting: a cell without `,`, `"`, `\n` or `\r` is written as it is; any other cell is wrapped in quotes, and holds a comma or a newline exactly when the cell does |
| SuperSections.UnquoteQuoteField | src/v2_samplesheet_maker/classes/super_sections.py:128-133 | removing the quotes and undoubling the inner `"` of a written cell gives the cell back |
| SuperSections.QuoteFieldExamples | src/v2_samplesheet_maker/classes/super_sections.py:128-133 | `z` is written as it is, `,` as `","` and `"` as `""""` |
| SuperSections.CsvLineQuotes | src/v2_samplesheet_maker/classes/super_sections.py:128-133 | a record of a comma, a quote and `z` is written `",","""",z`, and a record of one empty cell `""` |
| SuperSections.CsvLineReadsBack | src/v2_samplesheet_maker/classes/super_sections.py:128-133 | a record whose cells hold no comma splits at commas into its written cells, each reading back as its cell |
| SuperSections.CsvLineOneLine | src/v2_samplesheet_maker/classes/super_sections.py:128-133 | a record whose cells hold no newline is written on one line |
| SuperSections.TableLinesRead | src/v2_samplesheet_maker/classes/super_sections.py:128-133 | with cells free of commas and newlines, every line of the table is newline-free and reads back as its cells |
| SuperSections.TableToStringCells | src/v2_samplesheet_maker/classes/super_sections.py:128-133 | with cells free of commas and newlines (quotes are allowed and written doubled), the text splits into the header line, one line per row and an empty rest, and each line reads back as its cells in order |
| SuperSections.ListOfArgs | src/v2_samplesheet_maker/classes/super_sections.py:41 | `list(*args)`: no arguments give an empty list, one argument its elements, and more than one a TypeError |
| SuperSections.LogUntouchedOptions | src/v2_samplesheet_maker/classes/super_sections.py:34-45 | the loop collects one warning per positional element, then one per keyword argument in order |
| SuperSections.KeywordsOnlyWarn | src/v2_samplesheet_maker/classes/super_sections.py:44-45 | with keyword arguments only, there is exactly one warning per keyword, in order |
| SuperSections.PositionalWarnings | src/v2_samplesheet_maker/classes/super_sections.py:41-45 | the warnings exist exactly when there is no positional argument or one iterable one, and number its elements plus the keywords |
| SuperSections.KVSection.constructor | src/v2_samplesheet_maker/classes/super_sections.py:60-63 | a new key-value section has no section dict yet |
| SuperSections.KVSection.New | src/v2_samplesheet_maker/classes/super_sections.py:21-22 | construction fails exactly when the unused-option warnings cannot be listed, and otherwise gives a fresh section without a dict |
| SuperSections.KVSection.ToString | src/v2_samplesheet_maker/classes/super_sections.py:85-94 | a section without a dict fails on `.items()`; otherwise the dict's text |
| SuperSections.DataFrameSection.constructor | src/v2_samplesheet_maker/classes/super_sections.py:110-117 | a new tabular section has no frame yet |
| SuperSections.DataFrameSection.New | src/v2_samplesheet_maker/classes/super_sections.py:110-117 | construction fails exactly when the warnings cannot be listed, and otherwise gives a fresh section without a frame |
| SuperSections.DataFrameSection.ToString | src/v2_samplesheet_maker/classes/super_sections.py:125-133 | a section without a frame fails on `.to_csv`; otherwise the frame's csv text |
| LegacyModels.ValidateHeader | src/v2_samplesheet_maker/models/sections.py:13-20 | the header attributes validate exactly when the version is None or integer-like and the four names are None or strings |
| LegacyModels.ValidateReads | src/v2_samplesheet_maker/models/sections.py:23-28 | the reads attributes validate exactly when `read_1_cycles` is integer-like and the other three are None or integer-like; a None `read_1_cycles` fails on that field |
| LegacyModels.ValidateBclConvertSettings | src/v2_samplesheet_maker/models/sections.py:31-48 | the settings validate exactly when every one of the sixteen fields has its type: the two enums None or a member's value, strings None or a string, integers, floats and bools None or coercible, the collision check None or a list |
| LegacyModels.AdapterBehaviourChecked | tests/v2_samplesheet_maker/classes/test_sections.py:122-141 | a string that is no adapter behaviour, such as `tram`, fails validation on `adapter_behavior` |
| LegacyModels.ValidateDataRow | src/v2_samplesheet_maker/models/sections.py:51-66 | a row validates exactly when every one of its thirteen fields has its type: a string `sample_id`, an integer-like or None lane, the adapter behaviour None or a member's value, and the other fields None or strings or integers as declared; a missing sample id fails first, then a bad lane |
| LegacyModels.ValidateDataRows | src/v2_samplesheet_maker/models/sections.py:69-71 | the row list validates exactly when every row does |
| LegacySections.Unbound | src/v2_samplesheet_maker/classes/sections.py:26-36 | the keyword arguments that land in `**kwargs` are exactly those not named by a parameter |
| LegacySections.HeaderSectionDictShape | src/v2_samplesheet_maker/classes/sections.py:49-62 | the header table keeps the five keys in declaration order and holds each attribute that is not None |
| LegacySections.HeaderSection.constructor | src/v2_samplesheet_maker/classes/sections.py:26-47 | the new section keeps its attributes and warnings and has built its filtered table |
| LegacySections.HeaderSection.BuildSectionDict | src/v2_samplesheet_maker/classes/sections.py:49-62 | the section's dict becomes the filtered table of its attributes |
| LegacySections.HeaderSection.FromKwargs | src/v2_samplesheet_maker/classes/sections.py:26-47 | leaving out `file_format_version` is a missing-argument error; otherwise construction fails exactly when validation does, and a built section holds the filtered table and one warning per unused keyword |
| LegacySections.ReadsSectionDictShape | src/v2_samplesheet_maker/classes/sections.py:96-108 | the reads table keeps the four keys in order, holds each attribute that is not None, and opens with `Read1Cycles` once validated |
| LegacySections.ReadsSection.constructor | src/v2_samplesheet_maker/classes/sections.py:73-94 | the new section keeps its attributes and has built its filtered table |
| LegacySections.ReadsSection.BuildSectionDict | src/v2_samplesheet_maker/classes/sections.py:96-108 | the section's dict becomes the filtered table of its attributes |
| LegacySections.ReadsSection.FromKwargs | src/v2_samplesheet_maker/classes/sections.py:73-94 | leaving out `read_1_cycles` is a missing-argument error; otherwise construction fails exactly when validation does |
| LegacySections.BclConvertSettingsKeysDistinct | src/v2_samplesheet_maker/classes/sections.py:169-186 | the sixteen settings keys are distinct |
| LegacySections.BclConvertSettingsTableKeys | src/v2_samplesheet_maker/classes/sections.py:169-186 | the table has the sixteen keys in declaration order, with `TrimUMI` and `CreateFastqForIndexReads` holding their attributes |
| LegacySections.BclConvertSettingsSectionDictShape | src/v2_samplesheet_maker/classes/sections.py:164-188 | the settings dict keeps the key order, holds exactly the attributes that are not None, and maps `trim_umi` to `TrimUMI` and `create_fastq_for_index_reads` to `CreateFastqForIndexReads` |
| LegacySections.BCLConvertSettingsSection.constructor | src/v2_samplesheet_maker/classes/sections.py:119-162 | the new section keeps its attributes and has built its filtered table |
| LegacySections.BCLConvertSettingsSection.BuildSectionDict | src/v2_samplesheet_maker/classes/sections.py:164-188 | the section's dict becomes the filtered table of its attributes |
| LegacySections.BCLConvertSettingsSection.FromKwargs | src/v2_samplesheet_maker/classes/sections.py:119-162 | construction fails, with a schema error, exactly when validation does |
| LegacySections.RowKeysDistinct | src/v2_samplesheet_maker/classes/sections.py:241-257 | the thirteen row keys are distinct |
| LegacySections.RowTableKeys | src/v2_samplesheet_maker/classes/sections.py:241-257 | the row table has the thirteen keys in order, opening with `Lane` and `Sample_ID` |
| LegacySections.ToSeriesShape | src/v2_samplesheet_maker/classes/sections.py:236-260 | the series keeps the key order and holds exactly the attributes that are not None |
| LegacySections.ToSeriesLeadingColumns | src/v2_samplesheet_maker/classes/sections.py:236-260 | a series opens with `Lane` and `Sample_ID`, or with `Sample_ID` when the lane is None |
| LegacySections.AddColumns | src/v2_samplesheet_maker/classes/sections.py:282-287 | adding a series' keys to the columns gives the union of both, without repeats |
| LegacySections.UnionColumns | src/v2_samplesheet_maker/classes/sections.py:282-287 | the frame's columns are the union of the series' keys, each once |
| LegacySections.DropEmptyColumns | src/v2_samplesheet_maker/classes/sections.py:287 | `dropna(how="all", axis="columns")` keeps the records and exactly the columns with a value in some record |
| LegacySections.Filter | src/v2_samplesheet_maker/classes/sections.py:287 | the kept columns are those with a value in some record |
| LegacySections.Series | src/v2_samplesheet_maker/classes/sections.py:283-286 | one series per row, in row order |
| LegacySections.DataFrameShape | src/v2_samplesheet_maker/classes/sections.py:280-287 | the frame has one record per row, that row's series, and its columns are exactly the keys some row sets |
| LegacySections.BCLConvertDataSection.constructor | src/v2_samplesheet_maker/classes/sections.py:271-278 | the new section keeps its rows and has built their frame |
| LegacySections.BCLConvertDataSection.BuildSectionDf | src/v2_samplesheet_maker/classes/sections.py:280-287 | the frame becomes the one built from the section's rows |
| LegacySections.BCLConvertDataSection.ToString | src/v2_samplesheet_maker/classes/super_sections.py:125-133 | the csv text of the frame, or an error without one |
| LegacySections.BCLConvertDataSection.FromList | src/v2_samplesheet_maker/classes/sections.py:289-333 | the section is built exactly when every row converts, holding the converted rows; otherwise the first failing row's error |
| LegacySections.RowChecked | src/v2_samplesheet_maker/classes/sections.py:293-329 | a dict converts exactly when it has no key beyond the thirteen and its row validates; an extra key is reported as the first one left over |
| LegacySections.CheckedRows | src/v2_samplesheet_maker/classes/sections.py:293-329 | each row dict is checked on its own |
| LegacySections.DataRowsShape | src/v2_samplesheet_maker/classes/sections.py:289-333 | the conversion succeeds exactly when every row checks, keeping the row order; otherwise the error is the first failing row's |
| BclConvertModels.ParseSettings | src/v2_samplesheet_maker/models/bcl_convert_sections.py:14-35 | a validated model carries the software version and URN as given; an adapter behaviour or compression format outside its enum, or a collision check that is not a list, is a schema error |
| BclConvertModels.JoinCollisionCheck | src/v2_samplesheet_maker/models/bcl_convert_sections.py:56 | `";".join` succeeds exactly when every item is a string, giving their join; otherwise a non-string-join error |
| BclConvertModels.SettingsToDictFails | src/v2_samplesheet_maker/models/bcl_convert_sections.py:39-58 | `to_dict` fails, with the join's error, exactly when the collision check holds a non-string item |
| BclConvertModels.SettingsToDictKeys | src/v2_samplesheet_maker/models/bcl_convert_sections.py:39-58 | a successful `to_dict` has the seventeen external keys in declaration order |
| BclConvertModels.SettingsDictKeysNoUrn | src/v2_samplesheet_maker/models/bcl_convert_sections.py:39-58 | the external keys never include the URN |
| BclConvertModels.SettingsToDictValues | src/v2_samplesheet_maker/models/bcl_convert_sections.py:39-58 | a successful `to_dict` holds the enums as their values, the flag as given and the collision check as its `;`-join, None staying None |
| BclConvertModels.SettingsToJsonKeys | src/v2_samplesheet_maker/models/bcl_convert_sections.py:60-79 | `to_json` has its seventeen snake-case keys, each once, and no `urn` |
| BclConvertModels.SettingsToJsonFields | src/v2_samplesheet_maker/models/bcl_convert_sections.py:60-79 | each `to_json` field holds its attribute, the enums as their values and the collision check as the list |
| BclConvertModels.SettingsJsonRoundTrip | src/v2_samplesheet_maker/models/bcl_convert_sections.py:14-79 | validating `to_json` gives the model back, less its URN |
| BclConvertModels.ParseSettingsOf | src/v2_samplesheet_maker/models/bcl_convert_sections.py:14-35 | any dict holding the fields `to_json` writes for a model validates as that model without its URN |
| BclConvertModels.ParseDataRow | src/v2_samplesheet_maker/models/bcl_convert_sections.py:82-104 | a missing or non-string `sample_id` fails first, then a lane that is not an integer; a validated row carries the sample id, indices and kit names as given |
| BclConvertModels.LaneOneRejected | src/v2_samplesheet_maker/models/bcl_convert_sections.py:84 | the lane `"one"` is a schema error on `lane` |
| BclConvertModels.DataRowToDictShape | src/v2_samplesheet_maker/models/bcl_convert_sections.py:108-125 | `to_dict` has the thirteen keys in order, opening with `Lane` and `Sample_ID`, and the adapter behaviour as its value |
| BclConvertModels.DataRowToJsonKeys | src/v2_samplesheet_maker/models/bcl_convert_sections.py:127-142 | `to_json` has its eleven keys, each once, without the adapter behaviour, adapter stringency or kit names |
| BclConvertModels.DataRowToJsonFields | src/v2_samplesheet_maker/models/bcl_convert_sections.py:127-142 | each `to_json` field holds its attribute |
| BclConvertModels.DataRowJsonRoundTrip | src/v2_samplesheet_maker/models/bcl_convert_sections.py:82-142 | validating `to_json` gives the row back, less the four fields `to_json` leaves out |
| BclConvertModels.DataRowCloudRowValid | src/v2_samplesheet_maker/models/bcl_convert_sections.py:144-170 | the cloud row of a data row validates, carrying the sample id, the kit names and the library name built from the present indices |
| CloudModels.ParseCloudSettings | src/v2_samplesheet_maker/models/cloud_section.py:13-19 | validation succeeds exactly when `cloud_workflow` is a string and the other two fields are well typed; a missing workflow is a schema error on `cloud_workflow` |
| CloudModels.CloudSettingsWithoutUrns | src/v2_samplesheet_maker/models/cloud_section.py:23-29 | without analysis URNs the dict is `GeneratedVersion` then `Cloud_Workflow` with their values |
| CloudModels.CloudSettingsWithUrns | src/v2_samplesheet_maker/models/cloud_section.py:23-33 | with URNs the dict still opens with the two keys, holds a key exactly when one of the three sources does, a URN overriding the head, and has no repeated key |
| CloudModels.ParseCloudDataRow | src/v2_samplesheet_maker/models/cloud_section.py:36-44 | a row validates exactly when each of its five fields is None or a string |
| CloudModels.CloudDataRowToDictShape | src/v2_samplesheet_maker/models/cloud_section.py:48-55 | `to_dict` has the five keys in order, with the project and library names as given |
| CloudModels.CloudDataOrderColumnsAreKeys | src/v2_samplesheet_maker/models/cloud_section.py:63 | every row-order column is a key of a cloud-data row |
| CloudModels.LibraryName | src/v2_samplesheet_maker/models/bcl_convert_sections.py:150-163 | the library name is the sample id followed by `_index` and `_index2` for each index present |
| CloudModels.LibraryNameSplits | src/v2_samplesheet_maker/models/bcl_convert_sections.py:150-163 | splitting the library name at `_` gives back the sample id and present indices when none holds an underscore |
| CloudModels.CloudDataSectionRowFields | src/v2_samplesheet_maker/models/bcl_convert_sections.py:165-170 | the derived row carries the sample id, the library name and the kit names, and no project name |
| CloudModels.CloudDataSectionRowValid | src/v2_samplesheet_maker/models/bcl_convert_sections.py:144-170 | a derived row always validates as a cloud-data row with exactly those fields |
| TSO500LModels.ParseTSO500LSettings | src/v2_samplesheet_maker/models/tso500l_sections.py:12-18 | validation succeeds exactly when `starts_from_fastq` reads as a boolean and the two strings are well typed; otherwise a schema error naming `starts_from_fastq` first |
| TSO500LModels.TSO500LSettingsNeedStartsFromFastq | src/v2_samplesheet_maker/models/tso500l_sections.py:14 | a settings dict without `starts_from_fastq` is rejected on that field |
| TSO500LModels.TSO500LSettingsToDictShape | src/v2_samplesheet_maker/models/tso500l_sections.py:22-26 | `to_dict` is `SoftwareVersion` then `StartsFromFastq`, holding the flag, and never the URN |
| TSO500LModels.TSO500LSettingsRoundTrip | src/v2_samplesheet_maker/models/tso500l_sections.py:12-18 | validating a model's own fields gives the model back |
| TSO500LModels.ParseTSO500LRow | src/v2_samplesheet_maker/models/tso500l_sections.py:29-43 | `sample_id`, then `index_id`, must be strings and `sample_type` must be `DNA`, each failure reported on its field; a validated row carries those fields and the indices as given |
| TSO500LModels.TSO500LRowToDictShape | src/v2_samplesheet_maker/models/tso500l_sections.py:47-55 | `to_dict` has its six keys in order, the sample type written as `DNA`, and no kit names |
| TSO500LModels.TSO500LRowFieldsLookup | src/v2_samplesheet_maker/models/tso500l_sections.py:29-43 | each of the row's own fields reads back its attribute |
| TSO500LModels.TSO500LRowRoundTrip | src/v2_samplesheet_maker/models/tso500l_sections.py:29-43 | validating a row's own fields gives the row back |
| TSO500LModels.TSO500LRowCloudRowValid | src/v2_samplesheet_maker/models/tso500l_sections.py:57-83 | the derived cloud row validates, carrying the sample id, the kit names and the library name of the present indices |
| TSO500LModels.TSO500LOrderColumnsAreKeys | src/v2_samplesheet_maker/models/tso500l_sections.py:91 | every row-order column is a key of a row's `to_dict` |
| TSO500SModels.ParseTSO500SSettings | src/v2_samplesheet_maker/models/tso500s_sections.py:12-26 | a validated model carries `adapter_behaviour` and the URN as given; an adapter behaviour outside the enum, after well-typed adapter reads, is a schema error on `adapter_behaviour` |
| TSO500SModels.TSO500SSettingsToDictShape | src/v2_samplesheet_maker/models/tso500s_sections.py:30-40 | `to_dict` has the eight keys in order, spells `AdapterBehaviour` with a u, holds the behaviour's value and never the URN |
| TSO500SModels.TSO500SSettingsToJsonKeys | src/v2_samplesheet_maker/models/tso500s_sections.py:42-52 | `to_json` has the eight snake-case keys, each once, no `urn`, and the same values as `to_dict` position by position |
| TSO500SModels.TSO500SSettingsToJsonFields | src/v2_samplesheet_maker/models/tso500s_sections.py:42-52 | each `to_json` field holds its attribute |
| TSO500SModels.TSO500SSettingsJsonRoundTrip | src/v2_samplesheet_maker/models/tso500s_sections.py:12-52 | validating `to_json` gives the settings back, less the URN |
| TSO500SModels.ParseTSO500SRow | src/v2_samplesheet_maker/models/tso500s_sections.py:55-73 | a missing sample id fails on `sample_id`; a validated row carries the sample id, sample type, both indices and the pair id as given, with its enum fields inside the permitted values |
| TSO500SModels.TSO500SRowNeedsIndices | src/v2_samplesheet_maker/models/tso500s_sections.py:63-65 | a row without a string `index`, `index2` or `pair_id` is rejected |
| TSO500SModels.TSO500SRowDictAndJsonAgree | src/v2_samplesheet_maker/models/tso500s_sections.py:77-101 | `to_dict` and `to_json` carry the same nine values in the same order under their two key sets |
| TSO500SModels.TSO500SRowToJsonFields | src/v2_samplesheet_maker/models/tso500s_sections.py:90-101 | each `to_json` field holds its attribute |
| TSO500SModels.TSO500SRowToJsonLacksKits | src/v2_samplesheet_maker/models/tso500s_sections.py:90-101 | `to_json` carries no kit names |
| TSO500SModels.TSO500SRowJsonRoundTrip | src/v2_samplesheet_maker/models/tso500s_sections.py:55-101 | validating `to_json` of a valid row gives the row back, less its kit names |
| TSO500SModels.TSO500SLibraryName | src/v2_samplesheet_maker/models/tso500s_sections.py:103-129 | with both indices required, the library name is always `sample_index_index2`, and the cloud row validates |
| TSO500SModels.TSO500SCloudDataRow | src/v2_samplesheet_maker/section_classes/tso500s_sections.py:45-47 | the cloud row exists exactly when the raw row validates, and is that row's derived cloud row; otherwise the validation error |
| TSO500SModels.TSO500SCloudDataList | src/v2_samplesheet_maker/section_classes/tso500s_sections.py:66-72 | one cloud row per raw row, in input order, exactly when every raw row validates |
| TSO500SModels.TSO500SOrderColumnsAreKeys | src/v2_samplesheet_maker/models/tso500s_sections.py:137 | every row-order column is a key of a row's `to_dict` |
| RunInfoModels.ParseHeader | src/v2_samplesheet_maker/models/run_info_sections.py:10-16 | validation succeeds exactly when the version is None or integer-like and the four names are None or strings |
| RunInfoModels.ParseHeaderFields | src/v2_samplesheet_maker/models/run_info_sections.py:10-16 | validating a model's own fields gives the model back |
| RunInfoModels.HeaderToDictShape | src/v2_samplesheet_maker/models/run_info_sections.py:20-27 | `to_dict` has the five keys in order, each holding its field |
| RunInfoModels.ParseReads | src/v2_samplesheet_maker/models/run_info_sections.py:30-34 | validation succeeds exactly when `read_1_cycles` is an integer and the other three are None or integer-like; a None `read_1_cycles` is a schema error on that field |
| RunInfoModels.ParseReadsFields | src/v2_samplesheet_maker/models/run_info_sections.py:30-34 | validating a model's own fields gives the model back |
| RunInfoModels.ReadsToDictShape | src/v2_samplesheet_maker/models/run_info_sections.py:38-44 | `to_dict` has the four keys in order, `Read1Cycles` always an integer |
| SampleSheets.SettingsUrn | src/v2_samplesheet_maker/classes/samplesheet.py:201-202 | a key-value class builds exactly when its model validates the payload (`Sequencing` always does); the object's `urn` is the payload's `urn` for the classes whose model declares one, and None otherwise |
| SampleSheets.ParseRow | src/v2_samplesheet_maker/classes/samplesheet.py:203-204 | a positional row must be a mapping; it is accepted exactly when the class's row model validates it, giving that model |
| SampleSheets.BuildSection | src/v2_samplesheet_maker/classes/samplesheet.py:201-207 | a key-value payload must be a dict and validate; a tabular payload must iterate into rows that all validate, the section then holding those rows in order |
| SampleSheets.CloudDataList | src/v2_samplesheet_maker/section_classes/tso500s_sections.py:66-72 | one cloud row per section row, in order, when no row is itself a cloud-data row |
| SampleSheets.CloudDataPayload | src/v2_samplesheet_maker/classes/samplesheet.py:237 | the cloud rows become the positional arguments of `CloudDataSection`, one mapping each, in order |
| SampleSheets.Synthesise | src/v2_samplesheet_maker/classes/samplesheet.py:235-237 | a synthesised section is always a `Cloud_Data` section |
| SampleSheets.SynthesisValidates | src/v2_samplesheet_maker/classes/samplesheet.py:230-237 | synthesis from a tool's rows always succeeds, giving a `Cloud_Data` section with one row per tool row |
| SampleSheets.SynthesisRows | src/v2_samplesheet_maker/classes/samplesheet.py:230-237 | each synthesised row holds its tool row's sample id, library name and kit names |
| SampleSheets.SynthesisedRowParses | src/v2_samplesheet_maker/classes/samplesheet.py:235-237 | the cloud row a BCLConvert or TSO500L row gives passes `Cloud_Data` row validation unchanged |
| SampleSheets.MergeUrnsPayloadWins | src/v2_samplesheet_maker/classes/samplesheet.py:188-194 | after the merge a key holds the payload's own URN when `analysis_urns` is a dict that has it, and the accumulated one otherwise |
| SampleSheets.InjectUrnsReplaces | src/v2_samplesheet_maker/classes/samplesheet.py:195-199 | the payload handed to `Cloud_Settings` holds the merged URNs under `analysis_urns`, every other key unchanged, and validates to those URNs |
| SampleSheets.PipelineKeyOfTSO500L | src/v2_samplesheet_maker/classes/samplesheet.py:217 | `rstrip("_Settings")` of `TSO500L_Settings` stops at the `L`, so the key is `Cloud_TSO500L_Pipeline` |
| SampleSheets.DataNamesOfSettings | src/v2_samplesheet_maker/classes/samplesheet.py:220-223 | `replace("_settings", "_data")` turns `tso500l_settings` and `bclconvert_settings` into their data-section names |
| SampleSheets.HarvestConditions | src/v2_samplesheet_maker/classes/samplesheet.py:213-223 | the cloud key-value branch picks out exactly `Cloud_TSO500L_Settings`, and the `bclconvert_settings` branch exactly `BCLConvert_Settings` |
| SampleSheets.Harvest | src/v2_samplesheet_maker/classes/samplesheet.py:212-228 | a section without a URN, or of any other class, changes nothing; a cloud TSO500L URN goes in as `Cloud_TSO500L_Pipeline` and a BCLConvert URN as `BCLConvert_Pipeline`, each marking its tool's data section |
| SampleSheets.EmptySlots | src/v2_samplesheet_maker/classes/samplesheet.py:126-141 | the nine attributes start as None |
| SampleSheets.Store | src/v2_samplesheet_maker/classes/samplesheet.py:202-204 | the section goes into its class's attribute and no other attribute changes |
| SampleSheets.MarkedIsNotCloudData | src/v2_samplesheet_maker/classes/samplesheet.py:220-237 | a data-section name that can be marked is never `cloud_data` |
| SampleSheets.Record | src/v2_samplesheet_maker/classes/samplesheet.py:209-237 | after a step the built section sits in its class's attribute, and `cloud_data_section` changes only for a `Cloud_Data` input or a synthesis from a marked section |
| SampleSheets.PopulateStep | src/v2_samplesheet_maker/classes/samplesheet.py:168-237 | a name that resolves to no class is an unknown-section error; a step that succeeds resolved its name and changes the attributes only as `Record` allows |
| SampleSheets.PopulateStepUnfold | src/v2_samplesheet_maker/classes/samplesheet.py:168-237 | a resolved step prepares the payload, builds the section, and records it, stopping at the first error |
| SampleSheets.PopulateFrom | src/v2_samplesheet_maker/classes/samplesheet.py:166-237 | the fold over the ordered sections keeps every attribute holding a class that belongs in it |
| SampleSheets.NoSynthesisWithCloudData | src/v2_samplesheet_maker/classes/samplesheet.py:156-163 | with a `Cloud_Data` input present, no other section touches `cloud_data_section` |
| SampleSheets.PopulateFromUnknown | src/v2_samplesheet_maker/classes/samplesheet.py:182-184 | an unknown section name anywhere in the input stops the construction with an error |
| SampleSheets.PopulateFromResolves | src/v2_samplesheet_maker/classes/samplesheet.py:166-184 | a loop that runs to the end has resolved every section name it was given to a registry class |
| SampleSheets.PopulateFromStops | src/v2_samplesheet_maker/classes/samplesheet.py:166-237 | a failing step ends the fold with that step's error |
| SampleSheets.PopulateFromAdvances | src/v2_samplesheet_maker/classes/samplesheet.py:166-237 | a succeeding step leaves the rest of the fold to run from its new state |
| SampleSheets.SlotEntries | src/v2_samplesheet_maker/classes/samplesheet.py:239-249 | the listed attributes come with their registry positions, already in ascending order |
| SampleSheets.SectionListInCreationOrder | src/v2_samplesheet_maker/classes/samplesheet.py:239-251 | sorting by registry position keeps creation order |
| SampleSheets.SlotEntriesNames | src/v2_samplesheet_maker/classes/samplesheet.py:244 | an attribute is among the entries from position `i` exactly when it is at or after `i` and holds a section |
| SampleSheets.SectionListMembers | src/v2_samplesheet_maker/classes/samplesheet.py:239-251 | an attribute is in `section_list` exactly when it holds a section |
| SampleSheets.SampleSheet.Empty | src/v2_samplesheet_maker/classes/samplesheet.py:126-144 | every attribute starts as None and `section_list` as empty |
| SampleSheets.SampleSheet.PopulateSections | src/v2_samplesheet_maker/classes/samplesheet.py:149-251 | the loop ends exactly as the fold does: the fold's error, or its attributes with `section_list` built from them |
| SampleSheets.SampleSheet.PopulateLoop | src/v2_samplesheet_maker/classes/samplesheet.py:166-237 | the `for` loop over the ordered sections ends as the fold does: the fold's error, or the fold's attributes, every attribute holding a class that belongs in it |
| SampleSheets.SampleSheet.PopulateAt | src/v2_samplesheet_maker/classes/samplesheet.py:166-237 | one iteration either ends the whole fold with its error, attributes untouched, or leaves the fold to finish from the state it stores |
| SampleSheets.SampleSheet.PopulateOne | src/v2_samplesheet_maker/classes/samplesheet.py:168-207 | one pass of the loop body ends exactly as `PopulateStep`, leaving the attributes untouched on an error |
| SampleSheets.SampleSheet.StoreSection | src/v2_samplesheet_maker/classes/samplesheet.py:209-237 | storing, harvesting and synthesising ends exactly as `Record` |
| SampleSheets.SampleSheet.New | src/v2_samplesheet_maker/classes/samplesheet.py:106-147 | construction succeeds exactly when the import-order sort and the population do, giving a fresh object holding their attributes and section list |
| SampleSheets.WriteSections | src/v2_samplesheet_maker/classes/samplesheet.py:262-266 | the sections are written with a newline after every one but the last, so the output is their newline join |
| SampleSheetReader.GroupFromAppend | src/v2_samplesheet_maker/classes/samplesheet.py:321-336 | running the loop over two stretches of lines is running it over their concatenation |
| SampleSheetReader.NoHeaderKeepsGroups | src/v2_samplesheet_maker/classes/samplesheet.py:321-336 | lines without a header leave the stored groups and the open section alone |
| SampleSheetReader.HeaderOpens | src/v2_samplesheet_maker/classes/samplesheet.py:330-334 | once a header line has been read the loop has an open section |
| SampleSheetReader.NoSectionHeaderIff | src/v2_samplesheet_maker/classes/samplesheet.py:337-343 | reading raises `ValueError` exactly when no line of the text is a section header, and raises nothing else |
| SampleSheetReader.BlankLineIgnored | src/v2_samplesheet_maker/classes/samplesheet.py:323-327 | a line that strips to nothing changes nothing, wherever it stands |
| SampleSheetReader.LinesBeforeFirstHeaderDropped | src/v2_samplesheet_maker/classes/samplesheet.py:331-336 | the lines in front of the first header belong to no section and are dropped |
| SampleSheetReader.GroupFromSnoc | src/v2_samplesheet_maker/classes/samplesheet.py:321-336 | the loop over one more line is one more pass of its body |
| SampleSheetReader.GroupFromFour | src/v2_samplesheet_maker/classes/samplesheet.py:321-336 | the loop over four lines is four passes of its body |
| SampleSheetReader.RepeatedHeaderReplaces | src/v2_samplesheet_maker/classes/samplesheet.py:331-339 | a header seen twice keeps one entry, holding the lines of its last group |
| SampleSheetReader.StripStripped | src/v2_samplesheet_maker/classes/samplesheet.py:323 | stripping a stripped line changes nothing |
| SampleSheetReader.PutClean | src/v2_samplesheet_maker/classes/samplesheet.py:332 | storing content lines keeps every group made of content lines |
| SampleSheetReader.GroupStepClean | src/v2_samplesheet_maker/classes/samplesheet.py:323-336 | one pass keeps every stored and open group made of stripped, non-blank, non-header lines |
| SampleSheetReader.GroupFromClean | src/v2_samplesheet_maker/classes/samplesheet.py:321-339 | the whole loop keeps that |
| SampleSheetReader.GroupedLinesAreContent | src/v2_samplesheet_maker/classes/samplesheet.py:321-339 | the grouped lines are stripped, non-blank and never headers |
| SampleSheetReader.ReadGroups | src/v2_samplesheet_maker/classes/samplesheet.py:316-343 | the reading loop returns exactly the grouping of the lines, or the no-header error |
| SampleSheetReader.SnakeAll | src/v2_samplesheet_maker/classes/samplesheet.py:353-358 | each column name is converted on its own, keeping the order |
| SampleSheetReader.Cell | src/v2_samplesheet_maker/classes/samplesheet.py:352-366 | a cell past a row's end reads as None |
| SampleSheetReader.RecordOfDistinct | src/v2_samplesheet_maker/classes/samplesheet.py:366 | with distinct columns a record has exactly the columns as keys, each holding its cell |
| SampleSheetReader.Width | src/v2_samplesheet_maker/classes/samplesheet.py:352-365 | the width is the length of the longest row, and 0 for no rows |
| SampleSheetReader.CellRows | src/v2_samplesheet_maker/classes/samplesheet.py:359-364 | every data line is split at commas, in order |
| SampleSheetReader.Records | src/v2_samplesheet_maker/classes/samplesheet.py:352-366 | one record per data line, or the ragged-table error |
| SampleSheetReader.RecordsRefused | src/v2_samplesheet_maker/classes/samplesheet.py:352-366 | the table is refused exactly when some row is longer than the header, or every row is shorter |
| SampleSheetReader.RecordsContents | src/v2_samplesheet_maker/classes/samplesheet.py:352-366 | each accepted row becomes the record of its cells under the distinct columns |
| SampleSheetReader.PutStrValues | src/v2_samplesheet_maker/classes/samplesheet.py:369-372 | storing a string keeps a dict of strings |
| SampleSheetReader.KeyValuesFails | src/v2_samplesheet_maker/classes/samplesheet.py:369-372 | the comprehension fails, with an index error, exactly when some line has no comma |
| SampleSheetReader.KeyValuesShape | src/v2_samplesheet_maker/classes/samplesheet.py:369-372 | a comprehension that succeeds repeats no key and holds only string values |
| SampleSheetReader.KeyValuesKeys | src/v2_samplesheet_maker/classes/samplesheet.py:369-372 | a comprehension that succeeds has every line's converted first field as a key, and keeps the keys it started from |
| SampleSheetReader.SanitiseSection | src/v2_samplesheet_maker/classes/samplesheet.py:348-375 | the section is stored under its snake-case name |
| SampleSheetReader.SanitiseSectionShaped | src/v2_samplesheet_maker/classes/samplesheet.py:350-372 | a `_data` section becomes a list of records, any other a dict of strings |
| SampleSheetReader.PutShaped | src/v2_samplesheet_maker/classes/samplesheet.py:375 | storing a well-shaped section keeps every section well shaped |
| SampleSheetReader.SanitiseFromFails | src/v2_samplesheet_maker/classes/samplesheet.py:346-375 | sanitising fails exactly when one of the sections does |
| SampleSheetReader.SanitiseFromShaped | src/v2_samplesheet_maker/classes/samplesheet.py:346-375 | a successful sanitising has one entry per snake-case section name, without repeats, each of the shape its name calls for |
| SampleSheetReader.SanitiseSections | src/v2_samplesheet_maker/classes/samplesheet.py:346-375 | the sanitising loop returns exactly the sanitised dictionary or its error |
| SampleSheetReader.ShapedField | src/v2_samplesheet_maker/classes/samplesheet.py:378-379 | a sanitised section that is not a `_data` section is a dict of strings |
| SampleSheetReader.SplitKitsKeeps | src/v2_samplesheet_maker/classes/samplesheet.py:377-382 | on sanitised input the split never fails, keeps the section order and changes no section but `sequencing` |
| SampleSheetReader.SplitKitsJoins | src/v2_samplesheet_maker/classes/samplesheet.py:380-382 | the list of kits holds strings that join back, with `;`, to the text they were split from |
| SampleSheetReader.StringsOfFromStrings | src/v2_samplesheet_maker/classes/samplesheet.py:381 | the split's pieces, as values, read back as the same strings |
| SampleSheetReader.CollectUrnsFails | src/v2_samplesheet_maker/classes/samplesheet.py:388-390 | collecting fails exactly when a `_pipeline` key holds something other than a string |
| SampleSheetReader.CollectUrnsGet | src/v2_samplesheet_maker/classes/samplesheet.py:388-390 | a key holds its settings value when that value is a `_pipeline` urn, and otherwise what the accumulator held |
| SampleSheetReader.HoistUrnsFacts | src/v2_samplesheet_maker/classes/samplesheet.py:384-392 | each `_pipeline` key holding a `urn:` value ends up in `analysis_urns` with its value, nothing else does, and every other setting is kept |
| SampleSheetReader.HoistUrnsKeeps | src/v2_samplesheet_maker/classes/samplesheet.py:384-392 | hoisting keeps the section order and changes no section but `cloud_settings` |
| SampleSheetReader.HoistCloudUrns | src/v2_samplesheet_maker/classes/samplesheet.py:384-392 | the urn loop returns exactly the hoisted dictionary or its error |
| SampleSheetReader.ReadSectionsFails | src/v2_samplesheet_maker/classes/samplesheet.py:305-396 | reading fails only for a text without a header, a `_data` section without lines, a line without a comma, or a ragged table |
| SampleSheetReader.HoistNeverFails | src/v2_samplesheet_maker/classes/samplesheet.py:384-392 | on sanitised input the urn loop never fails |
| SampleSheetReader.SanitiseErrors | src/v2_samplesheet_maker/classes/samplesheet.py:346-375 | sanitising fails only with an index error or a ragged table |
| SampleSheetReader.ReadFromSamplesheetCsv | src/v2_samplesheet_maker/classes/samplesheet.py:305-396 | the method succeeds exactly when reading and construction do, giving a fresh sheet holding the constructed attributes; otherwise the first error |
| RunInfoJson.ReadsOf | src/v2_samplesheet_maker/functions/v2_samplesheet_to_run_info.py:36-42 | a sheet without a Reads section fails on `read_1_cycles`; otherwise the cycle counts are those of its validated model |
| RunInfoJson.Present | src/v2_samplesheet_maker/functions/v2_samplesheet_to_run_info.py:52-53 | the fields that carry a cycle count, never more than were given |
| RunInfoJson.ReadsListNumbered | src/v2_samplesheet_maker/functions/v2_samplesheet_to_run_info.py:48-60 | each present field gives one read, in field order, numbered on from the count so far |
| RunInfoJson.PresentInOrder | src/v2_samplesheet_maker/functions/v2_samplesheet_to_run_info.py:48-53 | the present fields are read 1, index 1, index 2 and read 2 in that order, each left out when None |
| RunInfoJson.PresentCons | src/v2_samplesheet_maker/functions/v2_samplesheet_to_run_info.py:52-53 | a field with a count is kept in front of the rest, one without is skipped |
| RunInfoJson.IndexedFlags | src/v2_samplesheet_maker/functions/v2_samplesheet_to_run_info.py:59 | `read_*` entries are flagged `N` and `index_*` entries `Y` |
| RunInfoJson.ReadsOfModel | src/v2_samplesheet_maker/functions/v2_samplesheet_to_run_info.py:45-60 | there are one to four reads, one per cycle count given, the first always read 1, numbered 1 and not indexed |
| RunInfoJson.PutNew | src/v2_samplesheet_maker/functions/v2_samplesheet_to_run_info.py:70-84 | assigning a key not yet present appends it |
| RunInfoJson.PutOptAppends | src/v2_samplesheet_maker/functions/v2_samplesheet_to_run_info.py:70-84 | a conditional assignment of a new key appends its entry, or nothing when the value is None |
| RunInfoJson.RunInfo | src/v2_samplesheet_maker/functions/v2_samplesheet_to_run_info.py:86-88 | the document fails exactly when the Reads section cannot be read |
| RunInfoJson.RunDictFields | src/v2_samplesheet_maker/functions/v2_samplesheet_to_run_info.py:62-84 | `@Id` and `Reads` come first; then each optional key, in parameter order, exactly when its argument is not None, stored as passed (a text flowcell stays text), `AlignToPhiX` being `Y` or None |
| RunInfoJson.RunDictFirstHalf | src/v2_samplesheet_maker/functions/v2_samplesheet_to_run_info.py:70-78 | the first four conditional assignments append their entries to the two fixed keys |
| RunInfoJson.SamplesheetToRunInfoJson | src/v2_samplesheet_maker/functions/v2_samplesheet_to_run_info.py:23-88 | the loop and the assignments return exactly the document `RunInfo` describes |
| RunInfoJson.RunInfoFromReads | src/v2_samplesheet_maker/functions/v2_samplesheet_to_run_info.py:45-88 | from the Reads section, the loop and the assignments build exactly the document `RunInfo` describes, or its error |
| RunInfoJson.ReadsList | src/v2_samplesheet_maker/functions/v2_samplesheet_to_run_info.py:45-60 | the loop over the cycle fields builds the numbered reads `ReadsListFrom` describes |
| RunInfoJson.AppendOptionalFields | src/v2_samplesheet_maker/functions/v2_samplesheet_to_run_info.py:62-84 | the run dictionary, extended key by key, is exactly `RunDict` |
| RunInfoWriter.Span | src/v2_samplesheet_maker/functions/run_info_writer.py:147 | a greedy `\d+` or `[A-Z0-9]+` takes the longest run of class characters from the start |
| RunInfoWriter.SpanIs | src/v2_samplesheet_maker/functions/run_info_writer.py:147 | a class run ended by the end of the text or a character outside the class is that span |
| RunInfoWriter.Word | src/v2_samplesheet_maker/functions/run_info_writer.py:147 | a class run followed by `_` is a match of one or more class characters, and the text is that run, `_`, and the rest |
| RunInfoWriter.WordOf | src/v2_samplesheet_maker/functions/run_info_writer.py:147 | a class run followed by `_` is read back as exactly that run and the rest |
| RunInfoWriter.MatchHead | src/v2_samplesheet_maker/functions/run_info_writer.py:147 | `(\d{6})_([A-Z0-9]+)_(\d+)_` yields a six-digit date, an upper-case alphanumeric instrument and a digit run, and the text is those three joined by `_`, then `_` and the text after the match |
| RunInfoWriter.MatchRunId | src/v2_samplesheet_maker/functions/run_info_writer.py:147 | a match that has a run number also has a well-formed date and instrument |
| RunInfoWriter.IntendedGroups | src/v2_samplesheet_maker/functions/run_info_writer.py:147-158 | an intended match is the three head groups and the flowcell group after them, so all four take part |
| RunInfoWriter.MatchHeadOf | src/v2_samplesheet_maker/functions/run_info_writer.py:147 | the head of a well-formed run id is matched into its three parts |
| RunInfoWriter.FlowcellSpan | src/v2_samplesheet_maker/functions/run_info_writer.py:147 | the flowcell group takes exactly the flowcell, stopping before the tail |
| RunInfoWriter.MatchRunIdRoundTrip | src/v2_samplesheet_maker/functions/run_info_writer.py:135-147 | the intended pattern matches a well-formed run id back into its date, instrument, number and flowcell |
| RunInfoWriter.MatchRunIdAsWritten | src/v2_samplesheet_maker/functions/run_info_writer.py:147 | as written, an `A` run id keeps its first three groups but loses its flowcell, and a `B` run id does not match |
| RunInfoWriter.MatchRunIdSound | src/v2_samplesheet_maker/functions/run_info_writer.py:135-147 | whatever the intended pattern matches opens with a well-formed run id not followed by another flowcell character |
| RunInfoWriter.GroupValue | src/v2_samplesheet_maker/functions/run_info_writer.py:156-158 | a group that did not take part reads as None, one that did as its text |
| RunInfoWriter.Versioned | src/v2_samplesheet_maker/functions/run_info_writer.py:131-132 | `@Version` becomes `"5"` when absent or None, and no other key changes |
| RunInfoWriter.GetPutAll | src/v2_samplesheet_maker/functions/run_info_writer.py:162-165 | `d[key] = value` sets that key and leaves every other key's lookup alone |
| RunInfoWriter.FillFromRunId | src/v2_samplesheet_maker/functions/run_info_writer.py:139-185 | a failed parse leaves the dictionary as it was; a successful one changes only `Run` |
| RunInfoWriter.CompleteMinimalInputs | src/v2_samplesheet_maker/functions/run_info_writer.py:126-185 | the in-place edits end exactly as `Complete`, error and dictionary both |
| RunInfoWriter.FillRunFromId | src/v2_samplesheet_maker/functions/run_info_writer.py:147-185 | matching the run id and then setting the four fields and the defaults in place ends exactly as `ParseRunId`, failure included |
| RunInfoWriter.CompleteEdits | src/v2_samplesheet_maker/functions/run_info_writer.py:126-185 | a missing run id edits nothing; any later failure leaves only the `@Version` edit; a success changes no key but `Run` and `@Version` |
| RunInfoWriter.CompleteAllGiven | src/v2_samplesheet_maker/functions/run_info_writer.py:139-145 | with `@Number`, `Flowcell`, `Instrument` and `Date` all given, the run id is not parsed and only `@Version` may change |
| RunInfoWriter.PutDefaultFacts | src/v2_samplesheet_maker/functions/run_info_writer.py:168-185 | a default is set only where the key is absent or None, touching no other key |
| RunInfoWriter.ParsedRunFields | src/v2_samplesheet_maker/functions/run_info_writer.py:156-165 | the four fields hold the parsed values, supplied ones included; the other keys keep theirs |
| RunInfoWriter.DefaultsFields | src/v2_samplesheet_maker/functions/run_info_writer.py:167-185 | `AlignToPhiX` becomes a key, and the image fields get their defaults only where absent or None |
| RunInfoWriter.DefaultsKeep | src/v2_samplesheet_maker/functions/run_info_writer.py:167-185 | the defaults touch no other key |
| RunInfoWriter.RecursiveCallRaises | src/v2_samplesheet_maker/functions/run_info_writer.py:187-191 | the final call's argument has no `Run` key, so it raises `KeyError` and edits nothing |
| RunInfoWriter.GenerateAsWritten | src/v2_samplesheet_maker/functions/run_info_writer.py:123-191 | as written, the caller's dictionary is edited as the completion edits it |
| RunInfoWriter.AsWrittenNeverReturns | src/v2_samplesheet_maker/functions/run_info_writer.py:187-191 | as written, no call returns a value: a completion that succeeds ends in `KeyError` |
| RunInfoWriter.Generate | src/v2_samplesheet_maker/functions/run_info_writer.py:123-185 | intended: the result exists exactly when the completion succeeds, and is the completed dictionary wrapped as `RunInfo` |
| RunInfoWriter.GenerateRunInfoFromMinimalInputs | src/v2_samplesheet_maker/functions/run_info_writer.py:123-191 | the method returns exactly what `Generate` describes, with the caller's dictionary as edited |
| RunInfoWriter.FieldsFromRunId | src/v2_samplesheet_maker/functions/run_info_writer.py:145-165 | intended: with a field missing, a well-formed run id fills `@Number` without leading zeros, `Flowcell`, `Instrument` and `Date`, and the call succeeds |
| RunInfoWriter.AsWrittenFieldsFromRunId | src/v2_samplesheet_maker/functions/run_info_writer.py:145-191 | as written, the same input gives an `A` run id a None flowcell and still ends in `KeyError`, and a `B` run id is rejected as a mismatch |
| RunInfoWriter.ParsedFilled | src/v2_samplesheet_maker/functions/run_info_writer.py:156-165 | a parse that succeeds stores the parsed fields under `Run` |
| RunInfoWriter.ParsedRunKeepsFields | src/v2_samplesheet_maker/functions/run_info_writer.py:156-185 | the defaults that follow the parse leave the four parsed fields alone |
| RunInfoWriter.DocstringRunId | src/v2_samplesheet_maker/functions/run_info_writer.py:135 | for `240229_A01052_0184_AHNVH5DMXY` the intended function derives number `184`, flowcell `HNVH5DMXY` and instrument `A01052`; as written the flowcell is None |
| RunInfoWriter.DocstringIdParts | src/v2_samplesheet_maker/functions/run_info_writer.py:135 | the parts of that run id |
| RunInfoWriter.DocstringNumber | src/v2_samplesheet_maker/functions/run_info_writer.py:156 | `str(int("0184"))` is `184` |
| StableSort.SortFrom | src/v2_samplesheet_maker/classes/samplesheet.py:242-249 | every key in the sorted run lies in the range sorted so far |
| StableSort.SortFromMembers | src/v2_samplesheet_maker/classes/samplesheet.py:242-249 | the sorted run holds only input elements |
| StableSort.SortByKeySorted | src/v2_samplesheet_maker/classes/samplesheet.py:115-124 | `sorted(..., key=...)` orders by key |
| StableSort.SortByKeyPermutes | src/v2_samplesheet_maker/classes/samplesheet.py:115-124 | the sort keeps every element as often as it occurs |
| StableSort.SortByKeyStable | src/v2_samplesheet_maker/classes/samplesheet.py:115-124 | elements sharing a key come out in the order they went in |
| StableSort.SortByKeyOfSorted | src/v2_samplesheet_maker/classes/samplesheet.py:239-251 | input already in key order comes out unchanged |
| Text.Strip | src/v2_samplesheet_maker/classes/samplesheet.py:323 | a stripped line neither starts nor ends with a character Python counts as whitespace (`str.isspace`), ASCII separators and Unicode spaces included |
| Text.StripUnpadded | src/v2_samplesheet_maker/classes/samplesheet.py:323 | a line without surrounding whitespace is unchanged by `strip` |
| Text.StripOnePad | src/v2_samplesheet_maker/classes/samplesheet.py:323 | `strip()` removes a whitespace character at each end of a line, the separators `\x1c`-`\x1f` and the Unicode spaces included |
| Text.Split | src/v2_samplesheet_maker/classes/samplesheet.py:356 | `split` gives at least one piece and no piece holds the separator |
| Text.JoinSplit | src/v2_samplesheet_maker/classes/samplesheet.py:381 | the pieces of a split join back, with the separator, to the text |
| Text.SplitJoin | src/v2_samplesheet_maker/models/bcl_convert_sections.py:151-163 | joining pieces without the separator and splitting again gives the pieces back |
| Text.RStripChars | src/v2_samplesheet_maker/classes/samplesheet.py:217 | `rstrip` removes the longest suffix of characters from the set and leaves a prefix of the text |
| Text.RStripCharsIs | src/v2_samplesheet_maker/classes/samplesheet.py:217 | the prefix up to the last character outside the set is what `rstrip` leaves |
| Text.LStripChars | src/v2_samplesheet_maker/classes/samplesheet.py:333 | `lstrip` removes the longest prefix of characters from the set and leaves a suffix of the text |
| Text.NatToString | src/v2_samplesheet_maker/functions/run_info_writer.py:156 | `str` of a natural number is a digit string without a leading zero whose value is the number |
| Text.StrOfIntDropsLeadingZeros | src/v2_samplesheet_maker/functions/run_info_writer.py:156 | `str(int(s))` of a digit string is the string without its leading zeros, or `0` |
| Values.ReqBool | src/v2_samplesheet_maker/models/tso500l_sections.py:14 | a required boolean field accepts exactly the boolean-like values, a boolean as itself; any other is a schema error on that field |
| Enums.ReqMember | src/v2_samplesheet_maker/models/tso500s_sections.py:59 | a required enum field accepts exactly a string among the enum's values |
| Enums.OptMember | src/v2_samplesheet_maker/models/tso500s_sections.py:60 | an optional enum field accepts None or a string among the enum's values |
| Text.IntegralReprOfInt | src/v2_samplesheet_maker/models/sections.py:16 | every integer printed as a float, `str(i) + ".0"`, is an integral float text standing for `i` |
| Text.PositionalMagnitude | src/v2_samplesheet_maker/models/sections.py:16 | digits, a point and zeros are integral and stand for the digits' value |
| Text.ScientificMagnitude | src/v2_samplesheet_maker/models/sections.py:16 | digits, a point, fraction digits and an exponent at least as long as the fraction are integral, standing for all the digits followed by the zeros the exponent leaves |
| Text.ExponentMagnitude | src/v2_samplesheet_maker/models/sections.py:16 | digits and a positive exponent are integral, standing for the digits followed by that many zeros |
| Text.FractionNotIntegral | src/v2_samplesheet_maker/models/sections.py:16 | a positional fraction with a non-zero digit is not integral |
| Text.NegativeExponentNotIntegral | src/v2_samplesheet_maker/models/sections.py:16 | a negative exponent is not integral |
| Text.NoDigitNotIntegral | src/v2_samplesheet_maker/models/sections.py:16 | a text that does not open with a digit, such as `inf` or `nan`, is not integral |
| Text.NegatedRepr | src/v2_samplesheet_maker/models/sections.py:16 | a leading minus sign negates the value, and without it the value is the magnitude's |


## Left out

- File and stream I/O: `to_csv` writes its text to a path (`classes/samplesheet.py` lines 253-266). The model joins the section texts and returns them. The reader's `is_file` check and `open` (lines 311-316) are not modelled either: the reader takes the file's lines as a parameter.
- `SampleSheet.to_json` (`classes/samplesheet.py` lines 268-302) is not modelled: neither its pass through a temporary JSON-lines file nor the merge of the sections with `dict.update`. `write_section` and `write_section_json` are not defined in `classes/super_sections.py`, so `SampleSheets.WriteSections` takes each section's text as given.
- The command-line programs and their wrappers under `run/` and `functions/v2_samplesheet_reader.py`, `functions/v2_samplesheet_writer.py`, `utils/cli.py` and `utils/docopt_docs.py`: argument parsing and file handling only.
- The XML codec: `samplesheet_csv_to_run_info_xml`, `functions/run_info_reader.py` and `utils/xml.py` wrap `xmltodict`, which is not part of this model. `RunInfoJson` and `RunInfoWriter` stop at the dictionary that would be written as XML.
- Logging (`utils/logger.py`): each warning about an unused keyword argument is returned as a list of the unused keys, not written to a log.
- The validation library: each model's field types are checked by an explicit function per field (`Values`, `Enums`). Its full coercion table is reduced to the cases the fields here meet: bools, integers, floats whose fractional part is zero, and numeric and boolean strings. A float is read from the text `repr` gives it (`151.0`, `1e+16`, `1.5e+17`), so the model does not cover a float that reaches the validator by some other route.
- SuperSections.TableToStringCells: the read-back is proved for cells free of commas and newlines. A cell holding one is quoted by `QuoteField`, whose quoting `UnquoteQuoteField` undoes, but no csv reader that splits only outside quotes is modelled.
- Floating point: `adapter_stringency` keeps the text of its number. No float arithmetic or formatting is modelled.
- pandas: a frame is a column list plus one record per row. Column order for rows with differing key sets is the order in which keys first appear. NaN, dtype inference and float rendering of integer columns with gaps are not modelled.
- Dates: `strftime`/`strptime` in `functions/run_info_writer.py` and the date reformatting are a function parameter `reformatDate`.
- Regular expressions: only the run-id pattern of `functions/run_info_writer.py` line 147 is modelled, as a hand-written matcher for the as-written and the intended pattern.
- `globals.py` and `models/samplesheet.py` are not part of this model: they hold constants and a top-level model that the core does not call.
- `SequencingSectionModel` is not part of this model (`models/run_info_sections.py` does not define it), so `SequencingSection` accepts any dictionary payload.
- `TSO500SSampleType` and `TSO500SSampleFeature` are not defined in `enums.py`. The TSO500S models take the sets of accepted values as parameters. The TSO500S section classes are modelled, but, as in `_all_sections`, they are not registered.
- TSO500SModels.TSO500SRowToDict: `to_dict` and `to_json` write `self.sample_feature` without `.value` (`models/tso500s_sections.py` lines 82 and 95), unlike `sample_type`. For a plain `Enum` this writes the member itself, whose CSV cell reads `TSO500SSampleFeature.<NAME>` and which `json.dumps` rejects. Since the enum is not defined, the model writes the value's string, as a `str`-based enum would.
- The base-class `get_cloud_data_list` and `DataFrameSectionRow` are not part of `classes/super_sections.py`. The BCLConvert and TSO500L data sections are modelled with the shape of the TSO500S override (`section_classes/tso500s_sections.py` lines 66-72): one cloud row per input row, in order.
- The construction of a section from its payload. `classes/super_sections.py` has no validation: its constructors (lines 21-22 and 60-63) only log the unused arguments and set `section_dict` to None, and `DataFrameSection(*rows)` raises `TypeError` for two or more rows at `list(*args)` (line 41), as `SuperSections.ListOfArgs` shows. The section classes (`section_classes/`) depend on more than that: `SampleSheets.BuildSection`, `SampleSheets.SettingsUrn`, `SampleSheets.ParseRow` and `RunInfoJson.ReadsOf` take `section_type(**payload)` and `section_type(*rows)` to validate the payload with the class's `_model`, to set the `urn` attribute and one attribute per field (such as `read_1_cycles`), to keep the raw arguments, and to leave `_is_cloud` False unless the class sets it. That behaviour is a reading of those classes, not of the shipped base class.
- A rule that a samplesheet has `Header` and `Reads` sections: the code does not enforce it, so the model accepts a samplesheet without them.
- LegacySections.BCLConvertDataSection.ToString: the cell rendering of the frame is abstracted to `str` of each value, with None as the empty cell. pandas' own number formatting is not modelled.
- Text.Lower: letter case and digits are ASCII only. `Text.IsUpper`, `Text.Lower`, `Text.Upper` and `Text.IsDigit` leave every other character alone, whereas Python's `isupper`, `lower`, `title` and the regular expression `\d` also treat non-ASCII letters and digits. Section names, column names and run ids are ASCII in every input the code documents.
- In-place edits of the caller's data: `get_bclconvert_datarows_from_list` pops the thirteen known keys out of each row dictionary it is given (`classes/sections.py` lines 294-306), and `populate_sections` writes `analysis_urns` into the caller's `Cloud_Settings` payload (`classes/samplesheet.py` lines 194-198). `LegacySections.BCLConvertDataSection.FromList` and `SampleSheets.InjectUrns` work on values, so the caller's dictionaries keep their keys in the model.
- Where the written description of the tool and its code disagree, the model follows the code. Two examples: the set-based `rstrip("_Settings")`, and the recursive call at the end of `generate_run_info_xml_from_minimal_inputs`.

## Findings

| source | as written | input that shows it | evidently intended | confidence | as-written member | corrected member |
|---|---|---|---|---|---|---|
| src/v2_samplesheet_maker/functions/run_info_writer.py:147 | the pattern `(\d{6})_([A-Z0-9]+)_(\d+)_A\|B([A-Z0-9]+)` has a top-level alternation, so it matches either the first half or `B...` | run id `240229_A01052_0184_AHNVH5DMXY`: the match succeeds with a None flowcell (group 4); a run id whose flowcell part opens with `B` does not match at all | `(\d{6})_([A-Z0-9]+)_(\d+)_[AB]([A-Z0-9]+)`, matching all four parts of an `A` or `B` run id | not executed | RunInfoWriter.MatchRunIdAsWritten | RunInfoWriter.MatchRunIdRoundTrip |
| src/v2_samplesheet_maker/functions/run_info_writer.py:187-191 | the function ends by calling itself on `{"RunInfo": input_dict}`, which has no `Run` key, so line 127 raises `KeyError` | any input whose `Run` has an `@Id`, e.g. `{"Run": {"@Id": "240229_A01052_0184_AHNVH5DMXY"}}` | return `{"RunInfo": input_dict}` | not executed | RunInfoWriter.AsWrittenNeverReturns | RunInfoWriter.Generate |
