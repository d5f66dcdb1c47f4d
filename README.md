# DQ rule builder — a Dafny model

The rule builder is a Streamlit page. You upload a CSV or Excel file and pick
a dbt-expectations test template from a catalog. The page then asks for the
template's parameters through form widgets, collects the finished rules in a
session list and exports them as a dbt `schema.yml`-style dictionary. This
project models that logic and proves its properties:

- `Rules` (rules.dfy): the template catalog `DBT_RULES` of rules.py and the
  older copy at the head of expectations.py. They hold 76 and 45 identifiers,
  each mapped to an ordered list of parameter names. The page reads the older
  copy (`Rules.LEGACY_RULES`), its own module constant; rules.py's catalog is
  what scrape_and_check.py and test_completeness.py import.
- `Forms` (forms.dfy):
  - the classifier that picks an input widget for each parameter name;
  - the loop that builds the parameter record;
  - the normalisation of comma-separated lists;
  - the display-name formatter `format_rule_nicely`.
- `Registry` (registry.dfy): the list in `st.session_state["rules"]`. A class
  `Session` with `Seed`, `Add`, `Pop` and the enumerate-and-remove loop.
- `Document` (document.dfy): the dictionary `generate_yaml` dumps, and the
  lookup of `expectations` that the reload path performs.
- `Page` (page.dfy): one run of the "Define Rules" tab, composed from the
  pieces above.
- `CatalogCheck` (scrape.dfy): the membership test of scrape_and_check.py.
- `Text` (text.dfy): the Python string operations used: `replace`, `split`,
  `join`, `strip`, `capitalize` and `endswith`.
- `Values` (values.dfy): Python/YAML values (`None`, scalars, lists, dicts).

In the catalog literals, each identifier is written without its common prefix
`dbt_expectations.`, and `Rules.Qualify` adds the prefix back. The literals
are split into blocks of nine entries, in source order.

## Model

| member | source | states |
|---|---|---|
| Rules.AllPrefixed | rules.py:2-86 | every identifier of the catalog starts with `dbt_expectations.` |
| Rules.NoRepeatedParameter | rules.py:2-86 | no parameter list names the same parameter twice |
| Rules.ExactlyOneParameterless | rules.py:52 | `expect_table_row_count_to_be_nonzero` is in the catalog with an empty list, and every template with an empty list is that one |
| Rules.LegacyIncluded | expectations.py:13-68 | every identifier of the older catalog is in rules.py with an identical parameter list |
| Rules.LegacyBlocks | expectations.py:14-67 | the older catalog's entries are, block for block, the first 45 entries of rules.py |
| Rules.TableTemplatesTakeNoColumn | rules.py:32-64 | no template whose identifier starts with `dbt_expectations.expect_table_` takes `column` |
| Rules.CaseTwins | rules.py:18 | the identifiers at rules.py:18 and rules.py:81 are distinct, equal once lower-cased, and both take `column_A, column_B, or_equal` |
| Rules.AllParametersNamed | rules.py:1-87 | every parameter of every template is one of the 43 names of `PARAMETER_NAMES` |
| Rules.LegacyNoRepeatedParameter | expectations.py:13-68 | in the catalog the page reads, no parameter list names the same parameter twice |
| Rules.LegacyParameterless | expectations.py:64 | the page's catalog lists `expect_table_row_count_to_be_nonzero` with an empty list, and every template there with an empty list is that one |
| Rules.LegacyTableTemplatesTakeNoColumn | expectations.py:44-67 | no table-level template of the page's catalog takes `column` |
| Rules.LegacyParametersNamed | expectations.py:13-68 | every parameter of the page's catalog is one of the 43 names of `PARAMETER_NAMES` |
| Forms.ClassifySingleColumn | expectations.py:131-146 | a name gets a single-column select box exactly when it is `column`, `column_A`, `column_B` or `date_column` |
| Forms.ClassifyHundredth | expectations.py:135-136 | a name gets a number input with step 0.01 exactly when it ends in `_value` |
| Forms.ClassifyWhole | expectations.py:147-152 | a name gets a number input with step 1 exactly when it is `n` or `interval` |
| Forms.ClassifyFreeText | expectations.py:137-138 | a name gets a text input exactly when it is `regex` |
| Forms.ClassifyDelimitedList | expectations.py:139-141 | a name gets a comma-separated text area exactly when it is `value_set`, `type_list`, `like_pattern_list` or `unlike_pattern_list` |
| Forms.ClassifyMultiColumn | expectations.py:142-144 | a name gets a multiselect exactly when it is `column_list` |
| Forms.ClassifyDatePart | expectations.py:149-150 | a name gets a day/month/year select box exactly when it is `datepart` |
| Forms.SkippedIffUnmatched | expectations.py:129-152 | a name gets no input exactly when it is none of the fifteen handled names and does not end in `_value` |
| Forms.LegacyCoverage | expectations.py:13-68 | over the page's own catalog, a parameter gets no input exactly when it is one of the 28 names of `UNHANDLED` |
| Forms.CatalogCoverage | test_completeness.py:4-9 | over the whole catalog, a parameter gets no input exactly when it is one of the 28 names of `UNHANDLED` (`value`, `p`, `threshold`, `strict_min`, `other_table`, `date_format`, …) |
| Forms.FieldFor | expectations.py:131-152 | the if/elif chain yields no field exactly for a name no branch matches, and otherwise the answer of the widget chosen for the name's kind, or the normalised list for list parameters |
| Forms.BuildRecord | expectations.py:128-155 | the record's keys are the handled parameters plus `row_condition` and `strictly`; each handled parameter holds its widget's answer, or the normalised list for list parameters; `row_condition` and `strictly` hold the last two answers |
| Forms.WidgetFor | expectations.py:131-152 | select boxes for single columns and date parts, over the headers or day/month/year; a multiselect over the headers for `column_list`; a number input with the kind's own step (0.01 or 1) for numeric kinds; a text input exactly for `regex`, a text area exactly for the list parameters |
| Forms.Clean | expectations.py:141 | keeps only non-empty stripped pieces, never more than it was given |
| Forms.CleanSingle | expectations.py:141 | one piece is kept, stripped, exactly when it is not blank |
| Forms.CleanAppend | expectations.py:141 | the comprehension works piece by piece: cleaning a concatenation concatenates the cleaned parts, so order is kept |
| Forms.NormaliseListOfPieces | expectations.py:139-141 | a text made of comma-free pieces joined by `,` normalises to exactly the cleaned pieces |
| Forms.CleanKeepsOut | expectations.py:141 | stripping and filtering never introduce a character that no piece had |
| Forms.NormaliseList | expectations.py:139-141 | every element is non-empty, has no surrounding whitespace and contains no comma |
| Forms.NormaliseJoined | expectations.py:139-141 | items joined with `,` and optional blanks come back unchanged and in order |
| Forms.FormatRuleNicely | expectations.py:88-93 | the display name contains no underscore |
| Forms.ThirdReplaceInert | expectations.py:90-91 | the `replace('dbt_expectations\.', '')` step never changes the string |
| Forms.DisplayShape | expectations.py:88-93 | character by character: what is left after removing `dbt_expectations.`, with blanks for underscores, first character upper-cased, the rest lower-cased |
| Forms.DisplayOfIdentifier | expectations.py:89-92 | for a prefixed identifier without a dot, the display name is the identifier's suffix spelt as above |
| Forms.DisplayIgnoresCase | expectations.py:92 | identifiers equal up to letter case get the same display name |
| Forms.CaseTwinsDisplayAlike | expectations.py:88-93 | `format_rule_nicely` gives the identifiers at rules.py:18 and rules.py:81 the same display name, so a selector offering both could not tell them apart; the page's own catalog lists only the first |
| Registry.RuleRecord | expectations.py:159 | `{"rule": id, **params}` has the parameters' keys plus `rule`; parameters keep their values and win over `rule` |
| Registry.PythonIndex | expectations.py:166 | an index is valid exactly in `-n <= idx < n`, and negative indices count from the end |
| Registry.RemoveAtKeepsOthers | expectations.py:166 | removing entry `j` keeps the earlier entries, shifts the later ones down by one and drops exactly one occurrence |
| Registry.PopUndoesAdd | expectations.py:159-166 | popping the last entry undoes an append |
| Registry.Session.constructor | expectations.py:121 | a new session stores no rules |
| Registry.Session.Seed | expectations.py:121-122 | the initial list is stored only if no list is stored yet |
| Registry.Session.Add | expectations.py:158-159 | exactly one record is appended and earlier records are unchanged |
| Registry.Session.Pop | expectations.py:166 | a valid index removes and returns that entry and keeps the others in order; an invalid one is an IndexError that changes nothing |
| Registry.Session.RemoveClicked | expectations.py:163-166 | with at most one clicked button, the clicked entry is removed and nothing else; with none, the list is unchanged |
| Document.ModelNameDropsExtension | expectations.py:75 | `name.csv` becomes `name` when `name` has no other `.csv` |
| Document.ModelNameKeepsOtherNames | expectations.py:75 | a file name without `.csv` is kept as it is |
| Document.ModelNameDropsLeadingCsv | expectations.py:75 | a `.csv` that is not an extension is removed too |
| Document.DocumentShape | expectations.py:73-81 | the document has keys `version` (2) and `models`, one model named after the upload, with the fixed description and config `materialized: true` |
| Document.ExportKeepsRules | expectations.py:78 | `models[0].columns` holds the session's rule list verbatim |
| Document.Get | expectations.py:119 | `doc[key]` succeeds exactly on a dictionary holding the key |
| Document.ExportNotReloadable | expectations.py:119 | loading an exported document raises KeyError, because the export has no `expectations` key |
| Document.InitialRules | expectations.py:110-119 | with no reloaded document the session starts empty; otherwise it starts from the document's `expectations` list |
| Document.ReloadRoundTrip | expectations.py:119 | a document whose `expectations` entry is a list reloads exactly that list |
| Document.ExportedDocumentFailsToSeed | expectations.py:119-122 | an exported document cannot seed a session |
| Page.RuleIsNotAField | expectations.py:159 | a parameter called `rule` would get no input, and neither `row_condition` nor `strictly` is called `rule`, so a built record never has a `rule` field |
| Page.Submit | expectations.py:118-159 | seeds the registry; without a click on "Add Rule" the list is unchanged; with one, exactly one record is appended and the earlier ones are kept. That record holds `rule` (the selected identifier), an entry for each handled parameter, `row_condition` and `strictly`, and nothing else |
| Page.DefineRun | expectations.py:125-159 | the same outcome, for the parameter list that the catalog gives the selected identifier |
| CatalogCheck.Unlisted | scrape_and_check.py:15-18 | reports exactly the scraped `dbt_` names missing from the catalog |
| CatalogCheck.UnlistedSingle | scrape_and_check.py:16-18 | one scraped name is reported exactly when it starts with `dbt_` and is not a catalog key |
| CatalogCheck.UnlistedAppend | scrape_and_check.py:15-18 | the report of a concatenation is the two reports in sequence, so names come out in scraped order, repeats included |
| Text.Split | expectations.py:141 | `split(",")` gives at least one piece, none containing the separator, and joining the pieces gives back the input |
| Text.SplitJoin | expectations.py:141 | splitting separator-free pieces that were joined gives the pieces back |
| Text.Strip | expectations.py:141 | `strip()` removes whitespace from both ends only; the result starts and ends with a non-space |
| Text.StripPadded | expectations.py:141 | leading whitespace before a stripped string is exactly what `strip()` removes |
| Text.ReplaceAbsent | expectations.py:89-91 | `replace` without an occurrence returns its input |
| Text.ReplaceTrailing | expectations.py:75 | removing a pattern that only ends the string removes that one copy |
| Text.ReplaceChar | expectations.py:90 | a one-character replace rewrites exactly the matching positions |
| Text.Capitalize | expectations.py:92 | first character upper case, the others lower case, same length |

## Left out

- Streamlit rendering is not modelled: tabs, titles, previews, buttons and the download. Widget answers and button clicks are inputs (`Forms.Answers`, `addClicked`, `clicked`).
- Reading the uploaded file through pandas is not modelled. The model receives the header list instead.
- The YAML text (`yaml.dump`, `yaml.safe_load`) is not modelled, only the dictionaries. So key order (`sort_keys=False`, dict insertion order) is not captured: Dafny maps are unordered.
- The options of the template selector are not modelled: `list(DBT_RULES.keys())` of expectations.py's own catalog, in insertion order. Selection is a parameter that must be a catalog key.
- Numbers from the number inputs are opaque values supplied by the environment. The 0.01 and 1 steps are tags.
- Text.Capitalize: upper and lower case apply to ASCII letters only. Python's `capitalize` also maps other letters, using the first character's title case.
- Document.InitialRules: a reloaded `expectations` value that is not a list is reported as an error at load time. The page instead stores whatever it finds, when no list is stored yet (expectations.py:121-122). A `None` then raises TypeError in the same run, at `enumerate` (expectations.py:163). A string or dictionary raises nothing until an "Add Rule" or "Remove" click reaches `append` or `pop`. When a list is already stored, the reloaded value is never used.
- Registry.Session.RemoveClicked: assumes at most one "Remove" button is reported clicked per run, as Streamlit does.
- Page.DefineRun: takes the catalog as a parameter, where the page reads its module constant `DBT_RULES` (`Rules.LEGACY_RULES`). The properties of that catalog are proved separately, in `Rules` (the `Legacy…` lemmas) and `Forms.LegacyCoverage`.
- The HTTP fetch and HTML parsing of scrape_and_check.py are not modelled. Only its membership test is.
- test_completeness.py calls `build_form_from_parameters`, which expectations.py does not define. What the script tries to check is stated as `Forms.CatalogCoverage`.
- No grouping of rules into table-level and column-level tests is modelled, because `generate_yaml` does none. The flat list goes under `columns`, as in the code.
