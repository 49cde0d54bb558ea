# Travel assistant tool framework — a Dafny model

This project models the deterministic core of a small travel-assistant system
written in Python. It has three parts.

- **Tool registry** (`src/core/tools/tool_registry.py`). Tools are registered
  from a function's signature and docstring. Each tool is kept under its name in
  insertion order, and its name is appended to one bucket per `ToolCategory`.
  The registry renders each tool as a JSON-like schema. Before a tool runs, its
  keyword arguments are validated and coerced. `execute` separates four
  failures: a keyword that repeats one of its own parameters, an unknown tool,
  invalid arguments, and an exception raised inside the tool.
- **Example tools** (`src/tools/basic_tools.py`). These are the table lookups
  with fallbacks behind `get_season_info` and its two helpers,
  `estimate_travel_time`, `convert_currency` and `calculate_budget`.
- **Conversation window of the assistant** (`src/agents/basic_agent.py`).
  `chat` sends the system prompt, the last ten history messages and the user's
  message. It keeps at most twenty messages of history and has an error path.
  The file also covers `reset` and the conversation summary.

## Files

| file | module | contents |
|---|---|---|
| `common.dfy` | `Common` | `Option` and `Result` |
| `strings.dfy` | `Strings` | the Python `str` operations used: `in`, `split`, `strip`, `upper`, decimal rendering |
| `values.dfy` | `Values` | runtime values, type annotations, `isinstance`, truthiness, and the `str`/`int`/`float`/`bool` conversions |
| `tool_model.dfy` | `ToolModel` | `ToolCategory`, `ParameterSchema`, `Tool`, `get_schema`, `validate_arguments` |
| `tool_registry.dfy` | `ToolRegistry` | parameter derivation, the registry, `register`, the listings, `clear`, `execute` |
| `basic_tools.dfy` | `BasicTools` | seasons, activities, best time, distance and travel time, currency, budget |
| `basic_agent.dfy` | `BasicAgent` | the assistant's message assembly, history window, reset and summary |

### Modelling choices

- **The registry** is a value `Registry(tools, buckets)`. `tools` is a sequence
  of tools in insertion order, standing for the Python dict, so a replaced entry
  keeps its place. `buckets` maps each category to its list of names.
  `ToolRegistry.Valid` is the two-index invariant:
  - every category has a bucket;
  - tool names are distinct;
  - every bucketed name is registered;
  - every registered tool's name is in its own category's bucket.
- **Registration reads an explicit declaration**, `FuncDecl`, instead of
  reflection. The declaration holds the function's name, its docstring, the
  parameters with optional annotation and default, the return annotation, and
  the function itself.
- **Tool functions, and the language-model client of the assistant, are
  function-typed parameters.** A tool function returns a value or the text of
  the exception it raised. The client returns the reply or the text of the
  exception.
- **Two conversions are parameters (`Values.Conversions`):** `str(x)` rendering
  and float parsing. `int(s)` on strings is spelled out: whitespace, an optional
  sign, then ASCII digits.
- **Floats are exact reals.** `round()` is not applied.
- **The random distance** of `estimate_travel_time` for an unknown pair is the
  parameter `draw`, required to lie in `[500, 5000]`.
- **Python dict literals read only through `.get`** are Dafny `map` displays.
  Dicts whose iteration order matters are sequences of pairs: the season tables
  and the budget allocation.

### Where the code and its description differ

A reader might expect `execute` to pass the coerced arguments to the tool. The
code calls `validate_arguments(**kwargs)`, which works on a fresh dict, and then
calls the tool with the caller's original `kwargs`
(`src/core/tools/tool_registry.py:204`, `:208`). The model follows the code:

- `ToolModel.ValidateFrom` returns the coerced copy;
- `ToolModel.CoercedCopyHoldsInteger` shows that the copy holds the converted
  integer;
- `ToolRegistry.Execute` passes the unconverted `args` to the tool.

So `execute("calculate_budget", days="不是数字")` fails validation with
`ValueError`. Meanwhile `execute("calculate_budget", days="3", ...)` passes the
string `"3"` on to the function.

Validation also has no `else` branch for annotations other than
str/int/float/bool (`src/core/tools/tool_registry.py:82-89`). A mismatched
value of such a type is accepted unchanged; `Values.Coerce` leaves it alone.

`isinstance` against a subscripted generic such as `Dict[str, float]` raises
`TypeError` outside the `try`, and `execute` lets it escape. The model has
`Verdict.TypeCheckRaised` and `ExecError.TypeError` for this. `Optional[T]` is
checked as `T` or `None`, as `isinstance` does on Python 3.10 and later.

## Model

| member | source | states |
|---|---|---|
| Strings.ContainsSpec | src/core/tools/tool_registry.py:138 | `sub in s` holds exactly when `sub` occurs at some index of `s` |
| Strings.PrefixContained | src/tools/basic_tools.py:347 | a season label that starts with the season name contains it |
| Strings.ContainsHasChars | src/tools/basic_tools.py:347 | every character of a contained substring occurs in the string, so a label missing a season's first character cannot contain it |
| Strings.Split | src/core/tools/tool_registry.py:137 | `split(sep)` yields one more part than `sep` occurs in the string, and no part contains `sep` |
| Strings.JoinSplit | src/core/tools/tool_registry.py:137 | rejoining the parts of a split with the separator gives back the original string |
| Strings.SplitJoin | src/core/tools/tool_registry.py:137 | splitting the join of separator-free parts gives back exactly those parts |
| Strings.SplitAfterFree | src/core/tools/tool_registry.py:139 | the text before the first separator is the first part, and the rest splits on its own |
| Strings.SplitFree | src/core/tools/tool_registry.py:139 | a string without the separator splits into itself alone |
| Strings.TrimStartSuffix | src/core/tools/tool_registry.py:139 | stripping leading whitespace leaves a suffix; only whitespace was removed, and the result starts with non-whitespace or is empty |
| Strings.TrimEndPrefix | src/core/tools/tool_registry.py:139 | stripping trailing whitespace leaves a prefix; only whitespace was removed, and the result ends with non-whitespace or is empty |
| Strings.StripSlice | src/core/tools/tool_registry.py:139 | `strip()` returns a slice whose cut-off ends are all whitespace and whose own ends are not whitespace |
| Strings.StripUntrimmed | src/core/tools/tool_registry.py:139 | `strip()` leaves a string without surrounding whitespace unchanged |
| Strings.StripWithout | src/core/tools/tool_registry.py:139 | stripping a string that lacks a character leaves a string that lacks it too |
| Strings.UpperChar | src/tools/basic_tools.py:155-156 | an ASCII lower-case letter becomes its capital, dotless `ı` becomes `I` and long `ſ` becomes `S`, and every other character is kept; the result is never lower-case ASCII |
| Strings.UpperCharToAscii | src/tools/basic_tools.py:155-156 | only an ASCII letter, `ı` or `ſ` upper-cases to an ASCII capital |
| Strings.UpperToAsciiLetters | src/tools/basic_tools.py:155-156 | a code whose upper-casing is all ASCII capitals, as every tabled currency code is, consists of ASCII letters, `ı` and `ſ` only |
| Strings.Upper | src/tools/basic_tools.py:155-156 | `upper()` keeps the length and maps every character independently |
| Strings.UpperIdempotent | src/tools/basic_tools.py:155-156 | upper-casing twice is the same as upper-casing once |
| Strings.NatToDecimal | src/agents/basic_agent.py:102 | a non-negative number renders as digits with no leading zero |
| Strings.IntToDecimal | src/tools/basic_tools.py:350 | `str(i)` is digits, with a leading minus for a negative number |
| Strings.DigitsOfNat | src/agents/basic_agent.py:106 | the rendered digits denote the number rendered |
| Values.PrimitiveNamed | src/core/tools/tool_registry.py:57 | a type name is read back only as a primitive annotation with that very name |
| Values.PrimitiveNameRoundTrip | src/core/tools/tool_registry.py:57 | the name shown for str, int, float or bool reads back as the same annotation |
| Values.IsInstance | src/core/tools/tool_registry.py:79 | `isinstance` raises exactly for annotations containing a subscripted generic; a bool counts as an int; `Optional[T]` accepts `None` or a `T` |
| Values.ParseInt | src/core/tools/tool_registry.py:85 | `int(s)` accepts only whitespace-padded optionally-signed digit strings; it accepts every non-empty digit string, and the sign fixes the result's sign |
| Values.IntRoundTrip | src/core/tools/tool_registry.py:85 | `int(str(i)) == i` for every integer |
| Values.IntToDecimalCases | src/core/tools/tool_registry.py:85 | an integer renders as its magnitude's digits, preceded by `-` exactly when negative |
| Values.NatRoundTrip | src/core/tools/tool_registry.py:85 | a rendered magnitude reads back with either sign |
| Values.ParseDigits | src/core/tools/tool_registry.py:85 | any digit string reads as its value, and its negation reads as the negated value |
| Values.ParseIntRejects | src/core/tools/tool_registry.py:85 | `int(s)` raises `ValueError` on a blank string or one whose first non-blank character is not a digit or sign |
| Values.Truncate | src/core/tools/tool_registry.py:85 | `int(x)` on a float truncates toward zero: the result lies within one of `x` on the side of zero |
| Values.Truthy | src/core/tools/tool_registry.py:89 | `bool(v)` is false exactly for None, False, 0, 0.0, the empty string, the empty list and the empty dict |
| Values.Coerce | src/core/tools/tool_registry.py:80-91 | str and bool conversions never fail; int and float fail on None, lists and dicts, and on strings they cannot parse; the result has the target type; other annotations leave the value untouched |
| Values.CoerceIntFromDecimal | src/core/tools/tool_registry.py:84-85 | a rendered integer passed for an `int` parameter converts back to that integer |
| Values.CoerceIntFromString | src/core/tools/tool_registry.py:84-85 | any string `int()` accepts converts to the integer it denotes |
| ToolModel.CategoryValueRoundTrip | src/core/tools/tool_registry.py:12-20 | a category's string value names that category and no other |
| ToolModel.AllCategoriesComplete | src/core/tools/tool_registry.py:12-20 | the list of categories holds every category once |
| ToolModel.GetSchema | src/core/tools/tool_registry.py:48-69 | a schema keeps the tool's name and description, shows the category by its string value, and has one entry per parameter in order, with the return type's name and description |
| ToolModel.SchemaRecoversPrimitiveTypes | src/core/tools/tool_registry.py:57 | a primitive parameter type can be recovered from the name shown in the schema |
| ToolModel.ValidateFrom | src/core/tools/tool_registry.py:71-92 | validation's copy of the arguments has exactly the caller's keys |
| ToolModel.ValidateFromFrame | src/core/tools/tool_registry.py:73-91 | a keyword argument naming no declared parameter is kept in the copy with its value |
| ToolModel.ValidateFromCopy | src/core/tools/tool_registry.py:77-89 | for accepted arguments and distinct parameter names, a supplied parameter whose value already fits keeps it, and one that does not fit holds its successful conversion |
| ToolModel.ValidateArguments | src/core/tools/tool_registry.py:71-92 | for distinct parameter names, `validate_arguments` returns True exactly when every declared parameter is present-or-optional and fits or converts |
| ToolModel.ValidateCharacterization | src/core/tools/tool_registry.py:73-92 | for distinct parameter names, validation accepts iff every parameter is present-or-optional and fits; otherwise the first failing parameter decides between `False` and the `TypeError` |
| ToolModel.ValidateIgnoresUndeclared | src/core/tools/tool_registry.py:73-76 | dropping keyword arguments that name no declared parameter never changes the verdict |
| ToolModel.CoercedCopyHoldsInteger | src/core/tools/tool_registry.py:84-85 | a numeral passed for an `int` parameter is accepted, and the validation copy holds the integer |
| ToolRegistry.FirstLineWith | src/core/tools/tool_registry.py:137-140 | the chosen docstring line is the first one containing the key, and none is chosen when no line contains it |
| ToolRegistry.SecondField | src/core/tools/tool_registry.py:139 | `line.split(":")[1]` contains no colon |
| ToolRegistry.DocDescription | src/core/tools/tool_registry.py:133-140 | without a docstring the description is empty; otherwise it is the whole docstring or a piece of it free of colons |
| ToolRegistry.DocDescriptionWithoutDoc | src/core/tools/tool_registry.py:133-136 | a missing or empty docstring gives every parameter the empty description |
| ToolRegistry.DocDescriptionUnmentioned | src/core/tools/tool_registry.py:133-140 | when no docstring line contains `name:`, the parameter's description is the whole docstring |
| ToolRegistry.DocDescriptionFromLine | src/core/tools/tool_registry.py:136-140 | when line `i` is the first one containing `name:`, the description is that line's text between its first and second colon, stripped |
| ToolRegistry.SchemaOfDecl | src/core/tools/tool_registry.py:132-148 | the type defaults to str; `required` holds iff there is no default; the default is kept or is None; the description comes from the docstring |
| ToolRegistry.DeclNames | src/core/tools/tool_registry.py:127 | the signature's names, in order |
| ToolRegistry.DeriveParameters | src/core/tools/tool_registry.py:126-149 | no derived parameter is `self`, and there are no more than declared |
| ToolRegistry.DeriveParametersCount | src/core/tools/tool_registry.py:127-131 | exactly one schema per declared parameter other than `self` |
| ToolRegistry.DeriveParametersAppend | src/core/tools/tool_registry.py:127-149 | derivation goes parameter by parameter, so it distributes over concatenated signatures |
| ToolRegistry.DeriveParametersPointwise | src/core/tools/tool_registry.py:127-149 | without `self`, schema `i` is derived from declared parameter `i` |
| ToolRegistry.BuildTool | src/core/tools/tool_registry.py:120-162 | the tool takes the explicit name when given and non-empty, else the function's; the explicit description, else the docstring, else empty; and one parameter for each signature parameter other than `self`, none of them named `self` |
| ToolRegistry.NewRegistry | src/core/tools/tool_registry.py:98-102 | a new registry is valid, holds no tool, and has an empty bucket for every category |
| ToolRegistry.FindTool | src/core/tools/tool_registry.py:181-183 | a tool is found iff its name is registered, and the found tool has that name and is one of the registered tools |
| ToolRegistry.FindToolAt | src/core/tools/tool_registry.py:181-183 | with distinct names, looking up a registered tool's name finds that tool |
| ToolRegistry.GetTool | src/core/tools/tool_registry.py:181-183 | `get_tool` returns a tool iff the name is registered, and then a registered tool of that name |
| ToolRegistry.PutTool | src/core/tools/tool_registry.py:166 | a dict store keeps the key order, adding a new name at the end |
| ToolRegistry.PutToolLookup | src/core/tools/tool_registry.py:166 | after a store the name finds the new tool and every other name finds what it found before |
| ToolRegistry.PutToolKeepsDistinct | src/core/tools/tool_registry.py:166 | a store keeps tool names distinct |
| ToolRegistry.PutToolFresh | src/core/tools/tool_registry.py:166 | storing an unregistered name appends the tool at the end |
| ToolRegistry.AddTool | src/core/tools/tool_registry.py:166-167 | the name now finds the new tool and other lookups are unchanged; the name is appended to its category's bucket and no other bucket changes |
| ToolRegistry.Register | src/core/tools/tool_registry.py:104-179 | the tool is named by the explicit name or else the function's name, is filed under the given category, and is stored as by `AddTool` |
| ToolRegistry.AddToolPreservesValid | src/core/tools/tool_registry.py:166-167 | adding a tool preserves the two-index invariant |
| ToolRegistry.RegisterPreservesValid | src/core/tools/tool_registry.py:104-179 | registration preserves the two-index invariant |
| ToolRegistry.RegisterEffect | src/core/tools/tool_registry.py:165-167 | the registered name finds the new tool and other lookups are unchanged; its bucket gains the name and other buckets are unchanged; the tool order grows only for a new name |
| ToolRegistry.RegisterDerivesTool | src/core/tools/tool_registry.py:120-163 | name: explicit else function name; description: explicit else docstring else empty; plus category, derived parameters, return type defaulting to str, and the function itself |
| ToolRegistry.ListTools | src/core/tools/tool_registry.py:185-187 | one schema per registered tool, in insertion order |
| ToolRegistry.SchemasOf | src/core/tools/tool_registry.py:192-196 | registered names yield their schemas one for one, an all-unregistered list yields nothing, and every schema listed is that of a registered tool named in the list |
| ToolRegistry.SchemasOfAppend | src/core/tools/tool_registry.py:192-196 | the listing goes name by name, so it distributes over concatenated name lists |
| ToolRegistry.SchemasOfSingle | src/core/tools/tool_registry.py:192-196 | a single name lists its tool's schema when registered and nothing otherwise |
| ToolRegistry.SchemasOfSkip | src/core/tools/tool_registry.py:192-196 | an unregistered name is skipped wherever it stands in the list |
| ToolRegistry.ListToolsByCategory | src/core/tools/tool_registry.py:189-196 | at most one schema per bucket entry, each the schema of a registered tool whose name is in the category's bucket |
| ToolRegistry.ListByCategoryValid | src/core/tools/tool_registry.py:189-196 | in a valid registry a category lists one schema per bucket entry, in bucket order |
| ToolRegistry.RegisteredSchemaParameterCount | src/core/tools/tool_registry.py:127-131 | a registered tool's schema lists one parameter per declared parameter other than `self` |
| ToolRegistry.ListToolsAfterAdd | src/core/tools/tool_registry.py:166-187 | a new name adds its schema at the end of the listing, and a re-used name keeps the listing's length |
| ToolRegistry.ListToolsAppend | src/core/tools/tool_registry.py:187 | the listing of tools with one more at the end is the old listing plus that tool's schema |
| ToolRegistry.ListToolsAfterRegister | src/core/tools/tool_registry.py:166-187 | registering a new name adds its schema at the end of `list_tools`, and re-registering a name keeps the listing's length |
| ToolRegistry.ReAddDuplicatesBucket | src/core/tools/tool_registry.py:166-167 | adding a name twice keeps one tool entry but puts the name in the bucket twice |
| ToolRegistry.ReAddAppendsNameTwice | src/core/tools/tool_registry.py:167 | two adds under one name and category append that name twice to the bucket |
| ToolRegistry.ReAddKeepsToolCount | src/core/tools/tool_registry.py:166 | re-adding a name replaces the tool without adding an entry |
| ToolRegistry.ReRegisterDuplicatesBucket | src/core/tools/tool_registry.py:104-179 | registering two functions under the same name leaves the second tool in the map and two copies of the name in the bucket |
| ToolRegistry.ReAddListsTwice | src/core/tools/tool_registry.py:189-196 | after a name is added twice, its category listing shows the replacing tool's schema twice |
| ToolRegistry.ReRegisterListsTwice | src/core/tools/tool_registry.py:189-196 | after re-registering a name, `list_tools_by_category` ends with the replacing tool's schema twice |
| ToolRegistry.Clear | src/core/tools/tool_registry.py:212-216 | after `clear` no tool is registered and no listing shows anything, while every category keeps its (empty) bucket |
| ToolRegistry.ClearPreservesValid | src/core/tools/tool_registry.py:212-216 | clearing preserves the two-index invariant |
| ToolRegistry.Execute | src/core/tools/tool_registry.py:198-210 | a keyword `self` or `tool_name`: `TypeError` before the body runs; unknown name: `ValueError` before any call; rejected arguments: `ValueError`; generic annotation: `TypeError`; otherwise the tool runs on the caller's original arguments, and its result is returned or its error re-raised as `RuntimeError` with its message |
| ToolRegistry.ExecuteRunsTool | src/core/tools/tool_registry.py:198-210 | for a registered tool with distinct parameter names and no clashing keyword, `execute` reaches the tool function (returning or raising `RuntimeError`) exactly when every parameter passes validation |
| ToolRegistry.NotFoundMentionsMissing | src/core/tools/tool_registry.py:202 | the unknown-tool message contains "不存在" |
| BasicTools.SeasonOfMonth | src/tools/basic_tools.py:336-343 | 3–5 is spring, 6–8 summer, 9–11 autumn, and every other month, out-of-range ones included, is winter (each an iff) |
| BasicTools.DestinationSeasons | src/tools/basic_tools.py:324-332 | a tabled destination gets its own season table, any other the default four northern seasons |
| BasicTools.BestTimeToVisit | src/tools/basic_tools.py:385-393 | a tabled destination gets its own best time, any other "春季和秋季" |
| BasicTools.RecommendedActivities | src/tools/basic_tools.py:364-382 | the tabled activities for a tabled destination and season, otherwise the default activities |
| BasicTools.FirstKeyContaining | src/tools/basic_tools.py:346-347 | the chosen label is the first, in table order, containing the season; none is chosen when no label does |
| BasicTools.SeasonInfoFor | src/tools/basic_tools.py:282-361 | the answer names the destination; without a (truthy) month it is the all-seasons record with the destination's table and best time |
| BasicTools.SeasonInfoForMonth | src/tools/basic_tools.py:334-361 | with a month: a month report iff some label contains the month's season, using the first such label, the month text, its description and the season's activities; otherwise the all-seasons record |
| BasicTools.FirstKeyAt | src/tools/basic_tools.py:346-347 | the loop stops at the first label containing the season |
| BasicTools.ThirdLabelFirst | src/tools/basic_tools.py:346-347 | when only the third label of the first three contains the season, it is chosen |
| BasicTools.FirstKeyAbsent | src/tools/basic_tools.py:346-356 | when no label contains the season the loop finds nothing |
| BasicTools.NotContainsWithoutFirst | src/tools/basic_tools.py:347 | a label lacking the season's first character does not contain the season |
| BasicTools.SeasonInitial | src/tools/basic_tools.py:336-343 | every computed season name starts with one of the four season characters |
| BasicTools.BangkokLabelsLackSeasons | src/tools/basic_tools.py:310-314 | no Bangkok label contains any of the four season names |
| BasicTools.BangkokIgnoresMonth | src/tools/basic_tools.py:310-361 | Bangkok always gets the all-seasons record with its cool-season best time, whatever month is given |
| BasicTools.UnknownDestinationFallbacks | src/tools/basic_tools.py:324-393 | an unknown destination gets the default season table, the default activities and the default best time |
| BasicTools.TokyoInApril | src/tools/basic_tools.py:298-372 | Tokyo in April yields the spring report with the cherry-blossom activities |
| BasicTools.MonthReportAt | src/tools/basic_tools.py:346-354 | when label `i` is the first match, the report carries label `i`, its description, the month text and the season's activities |
| BasicTools.SydneyTables | src/tools/basic_tools.py:315-381 | Sydney has its own season table but no activities table |
| BasicTools.SydneyWinterLabel | src/tools/basic_tools.py:315-320 | the first Sydney label containing winter is its third label, the southern winter |
| BasicTools.SydneyNorthernWinter | src/tools/basic_tools.py:315-354 | for Sydney any month outside 3–11 is reported under the June–August winter label, with the default activities |
| BasicTools.TabledDistance | src/tools/basic_tools.py:217-225 | a distance is found iff either order of the pair is tabled; it is positive, and the given order is used when tabled |
| BasicTools.NoReversedPairs | src/tools/basic_tools.py:206-215 | the distance table never holds a pair in both orders |
| BasicTools.TabledDistanceSymmetric | src/tools/basic_tools.py:217-225 | the lookup gives the same answer for (a, b) and (b, a) |
| BasicTools.Distance | src/tools/basic_tools.py:221-229 | the tabled distance when there is one, otherwise the random draw; always positive |
| BasicTools.Speed | src/tools/basic_tools.py:232-239 | an unknown mode travels at 100 km/h, and every speed is positive |
| BasicTools.ExtraTime | src/tools/basic_tools.py:245-252 | an unknown mode adds 1.0 hour, and every extra time is positive |
| BasicTools.EstimateTravelTime | src/tools/basic_tools.py:189-252 | the total hours minus the mode's extra time, times the speed, is the distance; the total exceeds the extra time |
| BasicTools.EstimateSymmetric | src/tools/basic_tools.py:217-252 | swapping origin and destination changes neither distance nor total time |
| BasicTools.TabledRate | src/tools/basic_tools.py:146-161 | a rate is found iff both codes are in the table, and it is the tabled, positive rate |
| BasicTools.NoSelfRate | src/tools/basic_tools.py:146-152 | no currency has a tabled rate to itself |
| BasicTools.ConvertCurrency | src/tools/basic_tools.py:155-180 | the codes are upper-cased; a tabled pair converts at its rate with no note; any other pair has rate 1.0, the amount unchanged and the default-rate note |
| BasicTools.ConvertCaseInsensitive | src/tools/basic_tools.py:155-156 | conversion is the same whatever the case of the codes given |
| BasicTools.SameCurrencyFallback | src/tools/basic_tools.py:159-180 | converting a currency to itself takes the fallback: rate 1.0, the same amount, and the note |
| BasicTools.UsdToCny | src/tools/basic_tools.py:146-162 | 1000 "usd" to "Cny" converts to 7200 |
| BasicTools.BasePrice | src/tools/basic_tools.py:70-89 | an unknown destination costs 120 per person per day, and every base price is positive |
| BasicTools.LevelMultiplier | src/tools/basic_tools.py:82-90 | an unknown budget level has multiplier 1.0, and every multiplier is positive |
| BasicTools.AllocationSumsToOne | src/tools/basic_tools.py:96-102 | the five allocation ratios sum to 1 |
| BasicTools.Breakdown | src/tools/basic_tools.py:116-118 | one budget item per allocation entry |
| BasicTools.BreakdownShares | src/tools/basic_tools.py:116-118 | item `i` has allocation `i`'s category and the total times its ratio |
| BasicTools.BreakdownSum | src/tools/basic_tools.py:116-118 | the items sum to the total times the sum of the ratios |
| BasicTools.CalculateBudget | src/tools/basic_tools.py:89-104 | the daily price is the base price times the multiplier, and the total is the daily price times days times travelers |
| BasicTools.BudgetItems | src/tools/basic_tools.py:96-118 | the breakdown gives each allocation category its share of the total, in order |
| BasicTools.BudgetBreakdownSumsToTotal | src/tools/basic_tools.py:96-118 | the unrounded breakdown sums to the total |
| BasicTools.UnknownBudgetDefaults | src/tools/basic_tools.py:89-104 | an unknown destination and level give a total of 120 × days × travelers |
| BasicAgent.LastUpTo | src/agents/basic_agent.py:63-103 | `s[-n:]` holds the last `min(len(s), n)` elements of `s`, as a suffix |
| BasicAgent.SystemPrompt | src/agents/basic_agent.py:17-35 | the prompt opens with the introduction followed by the assistant's name |
| BasicAgent.SystemPromptNamesAssistant | src/agents/basic_agent.py:17-35 | different names give different prompts |
| BasicAgent.SystemPromptSameTail | src/agents/basic_agent.py:17-35 | the text after the name is the same for every assistant |
| BasicAgent.NewAssistant | src/agents/basic_agent.py:9-12 | a new assistant has the given name and an empty history |
| BasicAgent.Messages | src/agents/basic_agent.py:58-67 | the system prompt, then the last at most ten history messages in order, then the user's message: between 2 and 12 messages |
| BasicAgent.Chat | src/agents/basic_agent.py:37-90 | success returns the reply and keeps the last `min(n+2, 20)` messages of history plus the user's message and reply; failure returns the apology with the error's text and leaves the history as it was after any reset |
| BasicAgent.Reset | src/agents/basic_agent.py:92-94 | the history is emptied and name and prompt are kept |
| BasicAgent.ChatKeepsLimit | src/agents/basic_agent.py:80-82 | a turn never takes the history past twenty messages |
| BasicAgent.ChatEndsWithTurn | src/agents/basic_agent.py:77-82 | after a successful turn the history ends with the user's message followed by the reply |
| BasicAgent.ResetFlagIsReset | src/agents/basic_agent.py:53-94 | chatting with `reset_conversation` is chatting after `reset()` |
| BasicAgent.TwoTurnsFromEmpty | src/agents/basic_agent.py:77-78 | from an empty history two successful turns leave exactly their four messages, in order |
| BasicAgent.Preview | src/agents/basic_agent.py:105 | content of at most 50 characters is shown whole; longer content shows its first 50 characters and "..." |
| BasicAgent.SummaryLines | src/agents/basic_agent.py:103-106 | one summary line per message shown |
| BasicAgent.SummaryLinesNumbered | src/agents/basic_agent.py:103-106 | line `k` is numbered from the start number plus `k` and shows message `k` |
| BasicAgent.Summary | src/agents/basic_agent.py:99-100 | the summary is "对话历史为空" exactly when the history is empty |
| BasicAgent.SummaryListsRecent | src/agents/basic_agent.py:102-108 | a header with the total message count, then one line for each of the last (at most six) messages, oldest first, numbered from 1 |

## Left out

- Reflection is not modelled. `inspect.signature` and `get_type_hints` (`src/core/tools/tool_registry.py:123-124`) become the explicit `FuncDecl`.
- The `functools.wraps` wrapper (`src/core/tools/tool_registry.py:170-177`) is left out. It only forwards calls and carries the tool as an attribute.
- `Tool.__call__` with positional arguments (`src/core/tools/tool_registry.py:44-46`) is left out. `execute` only passes keywords.
- `*args`/`**kwargs` in a tool's own signature are left out. Every declared parameter is an ordinary named one.
- The bodies of tool functions are left out. They are function-typed parameters returning a value or an error text.
- Values.Coerce: `str(x)` rendering and `float(s)` parsing are oracle parameters (`Values.Conversions`). Only their result types are stated.
- Values.Coerce: `int(x)` on an infinite or NaN float raises `OverflowError`/`ValueError`, which is not modelled. Floats are exact reals.
- Values.Coerce: three interpreter limits are not modelled. `float(s)` of a numeral beyond about 1.8e308 gives `inf`, whose `int()` raises an uncaught `OverflowError`. Python 3.11 and later reject `int(s)` for strings of more than 4300 digits. The `Optional[T]` check assumes Python 3.10 or later, where `isinstance` accepts a union.
- Values.ParseInt: `int(s)` accepts ASCII digits only. Python also accepts underscores between digits and non-ASCII decimal digits.
- Floating-point arithmetic and `round()` are left out of the budget, currency and travel-time tools. Amounts are exact reals; `BasicTools.BudgetBreakdownSumsToTotal` is about the unrounded amounts.
- BasicTools.CalculateBudget: `days` and `travelers` are reals; the source annotates them as `int`.
- BasicTools.EstimateTravelTime: the hour/minute/day text (`src/tools/basic_tools.py:255-264`) and the rounded `总小时数` are left out. The result carries the distance and the exact total hours.
- BasicTools.Distance: `random.randint(500, 5000)` is modelled only through its bounds, as the parameter `draw`.
- `get_current_time` is left out because it reads the wall clock.
- Strings.Upper: only ASCII letters, `ı` and `ſ` are upper-cased. Every other character is kept, so `é` stays `é` where Python gives `É`, and `ß` stays one character where Python gives `SS`.
- BasicTools.ConvertCurrency: the rate found agrees with Python for every input. Only ASCII letters, `ı` and `ſ` upper-case to ASCII capitals (`Strings.UpperToAsciiLetters`). Python's multi-letter results (`SS`, `FF`, `FI`, `FL`, `ST`) never occur inside the tabled codes. The codes returned differ from Python's only for codes holding other non-ASCII letters, such as `é` or `ß`.
- ToolRegistry.Execute: when both `self` and `tool_name` are passed as keywords, the model names `self` in the message. Python names whichever was written first, and a keyword map does not keep that order.
- ToolModel.ValidateArguments: a direct call with a keyword named `self` raises `TypeError` in Python. The model treats that keyword as an undeclared one.
- BasicTools.SeasonInfoFor: `month` is an optional integer. A value of another type is outside the model.
- BasicAgent.Chat: the `temperature` argument is left out; the source never passes it to the client.
- All `print` output is left out.
- `TravelAssistant.__init__`'s client construction and the module-level instance (`src/agents/basic_agent.py:13`, `:112`) are left out. The client is the `client` parameter of `BasicAgent.Chat`.
- BasicAgent.LastUpTo: it returns nothing for `n = 0`, whereas Python's `s[-0:]` is all of `s`. Only 6, 10 and 20 are used.
- The language-model client module, the command-line loop and the demo scripts are not part of this model.
