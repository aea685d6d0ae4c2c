# auto_VOC report pipeline in Dafny

This project models the report pipeline of `VOCAnalyzer` in `analyzer.py`. The analyzer reads customer reviews and sorts them into per-team buckets by keyword. For every team that has at least one matching review, it asks a language model for one markdown section. It then joins the sections into one report.

The modules follow the parts of the pipeline:

- `Configuration` (configuration.dfy): the `teams` mapping (team name → settings, in document order) and `_load_config`. A file that cannot be read or parsed gives `{}`.
- `Categorizer` (categorizer.dfy): a team's bucket. These are the review texts that contain any of the team's keywords as a case-sensitive substring, kept in table order.
- `Prompt` (prompt.dfy): what `analyze_group` asks the model. The count is the full bucket size. The excerpt is the first 20 texts joined by newlines. Both are substituted, with the category name, into the fixed template. The template is kept as literal text split at its `{category_name}`, `{reviews}` and `{count}` placeholders.
- `Analyzer` (analyzer.dfy): the class `VOCAnalyzer`, whose method `GenerateFullReport` is the team loop of `generate_full_report`. The class loads its configuration with the corrected loader `LoadConfig` (see "## Findings"); `ReportAsWritten` is the report on the configuration as `_load_config` actually returns it. The method is proved against the function `Report` and against three pieces beneath it:
  - `Plan`: the `analyze_group` calls made, in team order.
  - `RunSections`: runs those calls in order.
  - `Join`: glues the sections with `"\n\n"`.
- `Strings` (strings.dfy): Python's `in` on strings, `str.join`, `str.split` on one character (the inverse used to read an excerpt back) and `str(n)` for the count.
- `Wrappers` (wrappers.dfy): `Option` and `Result`.

The language model is a parameter `Llm = string -> Result<string, string>`. It receives the rendered prompt and either answers or raises. `chain.run` has no exception handler around it. So in the model, as in the code, the first call that raises ends `generate_full_report` with that error, and the remaining teams get no section.

## Model

| member | source | states |
|---|---|---|
| Configuration.KeywordsOf | analyzer.py:79 | a team without a `keywords` entry has no keywords |
| Configuration.Teams | analyzer.py:78 | a configuration without a `teams` entry has no teams |
| Configuration.LoadConfigAsWritten | analyzer.py:22-27 | as written: an unreadable or malformed file gives `{}`; any parsed document, mapping or not, is returned as is |
| Configuration.TeamsAsWritten | analyzer.py:78 | `self.config.get('teams', {})` raises exactly when the loaded document is not a mapping |
| Configuration.EmptyFileRaisesAsWritten | analyzer.py:22-27 | an empty configuration file (parsed to a non-mapping) gets past the fallback and makes the report raise |
| Configuration.LoadConfig | analyzer.py:22-27 | corrected loader: a parsed mapping is kept; every other outcome (unreadable, malformed, not a mapping) gives a configuration with no teams |
| Configuration.LoadConfigAgrees | analyzer.py:22-27 | wherever the written loader does not raise, the corrected one yields the same teams |
| Categorizer.Matches | analyzer.py:81 | `any(k in text for k in keywords)`: false for an empty keyword list, true whenever the empty keyword is listed; `SelectMembership` ties it to the bucket |
| Categorizer.MatchesSingle | analyzer.py:81 | with one keyword, matching is containing that keyword |
| Categorizer.SelectReviews | analyzer.py:81 | the bucket is no longer than the table and every text in it matches a keyword |
| Categorizer.SelectMembership | analyzer.py:81 | a text is in the bucket if and only if it is in the table and contains at least one keyword |
| Categorizer.SelectConcat | analyzer.py:81 | selecting from two concatenated tables is concatenating the two selections, so the bucket keeps table order |
| Categorizer.SelectSingle | analyzer.py:81 | a one-row table yields its row exactly when the row matches |
| Categorizer.SelectMultiplicity | analyzer.py:81 | duplicate rows are kept: a matching text occurs in the bucket as often as in the table, a non-matching one never |
| Categorizer.SelectNoKeywords | analyzer.py:79-81 | `any` over no keywords is false, so an empty or missing keyword list yields an empty bucket |
| Categorizer.SelectEmptyKeyword | analyzer.py:81 | the empty keyword is contained in every text, so a team listing it gets the whole table |
| Categorizer.SelectNonExclusive | analyzer.py:76-84 | a review matching two teams' keywords is in both buckets |
| Strings.IsSubstring | analyzer.py:81 | `needle in haystack`: case-sensitive containment; `EmptyIsSubstring`, `SubstringRefl`, `SubstringWiden` and `NotSubstringByMissingChar` give its meaning |
| Strings.Join | analyzer.py:94 | `sep.join(parts)` (also the excerpt join on line 37): empty for no parts and starting with the first part otherwise; `JoinAppend`, `JoinContainsParts` and `SplitJoin` give the rest of its meaning |
| Strings.JoinAppend | analyzer.py:94 | joining two non-empty lists is joining each, glued by one separator |
| Strings.JoinContainsParts | analyzer.py:94 | every joined part occurs in the joined string |
| Strings.SplitJoin | analyzer.py:37 | splitting on the separator undoes joining a non-empty list whose parts do not contain it |
| Strings.NatToString | analyzer.py:65 | `str(count)` is a non-empty string of decimal digits, one digit for a count below 10, with a leading zero only for 0; with `ParseNatToString` this fixes the text for every count |
| Strings.ParseNatToString | analyzer.py:65 | reading the decimal text of the count back gives the count |
| Prompt.TemplateHoles | analyzer.py:39-62 | the template mentions exactly the three declared input variables `category_name`, `reviews`, `count` |
| Prompt.Render | analyzer.py:59-65 | template substitution; no contract of its own: `RenderConcat`, `RenderContainsSegment` and `RenderCarriesHoles` state what it keeps |
| Prompt.RenderConcat | analyzer.py:59-65 | substitution works piece by piece over the template |
| Prompt.RenderContainsSegment | analyzer.py:59-65 | every literal piece of a template survives verbatim and every placeholder appears as its value |
| Prompt.RenderCarriesHoles | analyzer.py:59-65 | the value of every variable a template mentions occurs in the rendered text |
| Prompt.Excerpt | analyzer.py:37 | `"\n".join(texts.head(20))` is empty for an empty group; `ExcerptLines` and `ExcerptIgnoresTail` state which texts it holds |
| Prompt.ExcerptLines | analyzer.py:37 | read back line by line, the excerpt is exactly the first min(20, n) texts, in order (for texts without line breaks) |
| Prompt.ExcerptIgnoresTail | analyzer.py:37 | texts after the twentieth do not change the excerpt |
| Prompt.Inputs | analyzer.py:65 | the category name is passed through unchanged |
| Prompt.InputsCount | analyzer.py:33 | the count substituted is the full group size, even beyond 20 |
| Prompt.BuildPrompt | analyzer.py:33-65 | the prompt `analyze_group` renders; no contract of its own: `PromptCarriesInputs` and `PromptKeepsLiterals` state what it contains |
| Prompt.PromptCarriesInputs | analyzer.py:39-65 | the rendered prompt contains the category name, the excerpt and the decimal count |
| Prompt.PromptKeepsLiterals | analyzer.py:39-57 | every literal piece of the template occurs unchanged in the rendered prompt |
| Analyzer.AnalyzeGroup | analyzer.py:29-66 | `analyze_group`: the chain's model applied to the rendered inputs of one bucket; no contract of its own: `AnalyzeGroupPrompt` ties it to `BuildPrompt` |
| Analyzer.AnalyzeGroupPrompt | analyzer.py:59-66 | with the fixed template, `analyze_group` returns the model's answer to exactly the prompt built for the bucket |
| Analyzer.Bucket | analyzer.py:79-81 | a team's bucket fits in the table and is empty when the team has no keywords; `SelectMembership` says which reviews it holds |
| Analyzer.Plan | analyzer.py:78-86 | there are at most as many `analyze_group` calls as teams |
| Analyzer.PlanConcat | analyzer.py:78 | the calls for two concatenated team lists are the calls of each, in that order |
| Analyzer.PlanStep | analyzer.py:78-92 | one more team adds its call exactly when its bucket is non-empty |
| Analyzer.PlanSingle | analyzer.py:83-86 | a single team makes one call, with its bucket, exactly when the bucket is non-empty |
| Analyzer.PlanIncludes | analyzer.py:78-86 | every team with a non-empty bucket gets a call with that bucket |
| Analyzer.PlanOrigin | analyzer.py:78-86 | every call comes from a configured team whose bucket is non-empty |
| Analyzer.PlanMembership | analyzer.py:78-86 | a call is made if and only if it is for a configured team with a non-empty bucket, with that bucket |
| Analyzer.PlanCount | analyzer.py:83-92 | the number of calls equals the number of teams with a non-empty bucket |
| Analyzer.PlanSkipsKeywordless | analyzer.py:79-83 | a team with an empty or missing keyword list makes no call, wherever it stands |
| Analyzer.PlanNoReviews | analyzer.py:81-83 | an empty review table makes no call |
| Analyzer.RatioDenominatorPositive | analyzer.py:84 | a call is only made when the table has rows, so the ratio never divides by zero; its bucket fits in the table |
| Analyzer.RunSections | analyzer.py:86-92 | a successful run yields one section per call |
| Analyzer.RunSectionsStep | analyzer.py:86-92 | one more call appends its answer or ends the run with its error |
| Analyzer.RunSectionsAbort | analyzer.py:86 | once a call has raised, later calls do not change the outcome |
| Analyzer.AbortAt | analyzer.py:78-92 | if the calls for a prefix of the teams raise, the whole report ends with that same error |
| Analyzer.RunSectionsSuccess | analyzer.py:86-92 | the sections are produced if and only if every call answers, and the k-th section is the k-th call's answer |
| Analyzer.RunSectionsFailure | analyzer.py:86 | when the run fails, its error is that of the first call that raised |
| Analyzer.Report | analyzer.py:68-94 | the report on a loaded configuration; no contract of its own: `ReportEmpty`, `ReportSections`, `RunSectionsFailure` and `PlanMembership` state what it is |
| Analyzer.ReportAsWritten | analyzer.py:75-94 | on the configuration `_load_config` returns as written, the report raises when the parsed document is not a mapping, and otherwise equals `Report` on the corrected configuration |
| Analyzer.ReportEmpty | analyzer.py:75-94 | with no teams, no reviews or no matching reviews the report is the empty string |
| Analyzer.ReportUnloadableConfig | analyzer.py:22-27 | with the corrected loader `LoadConfig`, a configuration that cannot be loaded as a mapping gives the empty report (as written, a parsed non-mapping raises instead: `ReportAsWritten`) |
| Analyzer.ReportSections | analyzer.py:92-94 | when every call answers, the report is the sections joined by a blank line, and each section occurs in it |
| Analyzer.VOCAnalyzer.constructor | analyzer.py:10-20 | the analyzer holds the configuration loaded by the corrected loader `LoadConfig` (a parsed non-mapping becomes `{}`) and the model behind the fixed template |
| Analyzer.VOCAnalyzer.GenerateFullReport | analyzer.py:68-94 | the team loop returns exactly `Report`: the sections of the non-empty teams in team order, joined by `"\n\n"`, or the first model error |
| Analyzer.ScenarioBillingBucket | analyzer.py:81 | in a three-review example the "payment failed" bucket holds the two payment reviews, in order |
| Analyzer.ScenarioCrashBucket | analyzer.py:81 | in the same example the "app crashed" bucket holds the one crash review |
| Analyzer.ScenarioPlan | analyzer.py:78-86 | the example makes two calls, billing then crash, with buckets of two and one reviews |
| Analyzer.ScenarioReport | analyzer.py:92-94 | when the example's two calls answer, its report is exactly the two sections joined by a blank line |

## Left out

- The language model itself (`ChatGoogleGenerativeAI` with model `gemini-1.5-flash` and temperature 0.0) and the LangChain objects `PromptTemplate` and `LLMChain` are foreign code; the model is reached over the network. The model is the parameter `Llm`, a function from the rendered prompt to an answer or an error. The template substitution those objects perform is modelled, by `Prompt.Render`.
- The `GOOGLE_API_KEY` environment check and its warning print are console I/O.
- Reading the review CSV (`pd.read_csv`), the `os.path.exists` check and the `__main__` block are file and console I/O. The review table is given as the sequence of its `review_text` values. A missing file raises at line 69. A missing `review_text` column raises `KeyError` at line 81 as soon as one team is configured; with no teams the column is never read and the report is `""`. Neither case is modelled.
- Opening and YAML-parsing the configuration file is file I/O. Its outcome is the `Source` value: unreadable, malformed, or parsed to a mapping or to something else. The model assumes a parsed mapping has the expected shape:
  - `teams`, when present, is a mapping (a bare `teams:` parses to `None`, and `.items()` on line 78 raises);
  - team settings are mappings;
  - `keywords`, when present, is a list of strings.
  Other shapes are not modelled. Most of them raise in the code. A string-valued `keywords` (such as `keywords: payment failed`) does not: line 81 iterates over it, so each of its characters becomes a keyword. A mapping-valued `keywords` likewise contributes its keys as keywords.
- The `ratio` on line 84 is floating point and never used (the `ratio = 0` on line 34 is an unused placeholder). Only the fact that the division on line 84 cannot divide by zero is proved.
- A missing review text is a float NaN, which the filter on line 81 sees as `"nan"` via `str(x)`. The model takes every review text to be a string. This also hides a raise: when `"nan"` matches a keyword (say `"a"` or `"n"`) and the missing text is among the bucket's first 20 rows, `"\n".join` on line 37 raises `TypeError` on the float.
- Python strings are sequences of code points, and Dafny strings are sequences of Unicode scalar values. The two agree for the comparisons made here.
- `analyze_group` builds a new chain on every call. The model builds `Chain(Template, llm)` once, in the constructor. The template and the model do not change between calls, so every call renders the same prompt a freshly built chain would render for that team's inputs.
- The team mapping is a sequence of (name, settings) pairs in document order. A parsed mapping has unique keys: `safe_load` accepts a repeated key, and the team keeps its last settings at its first position. The model's `seq<Team>` also admits repeated names, which no parse produces.
- Analyzer.VOCAnalyzer.constructor: stores `LoadConfig(source)`, the corrected loader, not the document `_load_config` returns as written. For a parsed document that is not a mapping (an empty file), the class therefore reports `""` where the code raises at line 78; `Analyzer.ReportAsWritten` models that raise.
- Prompt.ExcerptLines: reads the excerpt back only for texts without line breaks. A text holding `"\n"` makes the joined excerpt ambiguous, and the lemma does not cover that case.
- generate_data.py (random mock-data synthesis and CSV writing) and statistics_engine.py (random noise, float clipping, Pearson correlation) are not part of this model.
- test_logger.py calls a `_log_trace` method that analyzer.py does not define. Trace files, model auto-selection, mock mode, the statistics table, retrieval context, credential masking and the command-line interface do not appear in analyzer.py, and none of them is part of this model.

## Findings

| source | as written | input that shows it | evidently intended | confidence | as-written member | corrected member |
|---|---|---|---|---|---|---|
| analyzer.py:22-27 | `_load_config` returns whatever `yaml.safe_load` gives, so a file that parses to a non-mapping is returned. `self.config.get` on line 78 then raises `AttributeError` (`Analyzer.ReportAsWritten` fails). | an empty `config/teams.yaml`, which `safe_load` turns into `None` | a configuration that is not a mapping degrades to `{}`, like an unreadable or malformed one, and the report is empty | medium; not executed | Configuration.EmptyFileRaisesAsWritten | Configuration.LoadConfig |
