# email-labeller in Dafny

A model of the core of email-labeller, a tool that sorts a Gmail inbox with
a language model. It covers these parts:

- **The labeller** (`createEmailLabeller`). It holds a memoised map from
  label names to label ids. `processNewEmails` fetches the inbox, keeps the
  emails the state store has not seen, classifies each one, applies the
  label and marks the email processed. An error on one email does not stop
  the loop. `backfill` does the same over a wider search. It has a `force`
  switch and skips emails that already carry a label. `cleanup` trashes old
  mail by per-label retention rules.
- **The file state store.** It keeps a bounded window of processed ids and a
  last-run stamp in one JSON file.
- **The local rule matcher.** It does case-insensitive substring and
  `*@domain` sender matching, ANDs the constraints, and picks the first rule
  that matches.
- **The Gmail query builders** of the adapter and of the `remove` command,
  with their two size parsers, and the `remove` argument scanner.
- **The Gmail provider of the `src` tree:**
  - the paging loop of `getEmails`;
  - header defaults;
  - the find-or-create loop of `ensureLabelsExist`;
  - `hasLabels`;
  - authentication state;
  - the wrapping of every failure as a `ProviderError`.
- **The `ai-sdk` classifier:**
  - the prompt;
  - the checks the answer schema makes;
  - the batch loop with its fallback label.
- **The configuration schemas**, written as validity predicates with parse
  functions and round trips.
- **Small command-line logic:**
  - the `backfill` arguments and counters;
  - the `suggest` email sample and its `--max=` argument;
  - the `labels` command's filter and sort.

Gmail, the language model and the file system are oracles, either
function-valued parameters or `const` fields.

Where the code carries state, the model does too:
- The labeller, the store, the mailbox and the Gmail provider are classes.
- Their methods are proved equal to specification functions over the old
  state. For example, `ensures (State(), r) == ProcessNewSpec(old(State()), ...)`.
- Lemmas then prove what the code promises about those functions.

The loops are `for` and `while` loops with invariants:
- `getEmails`;
- `ensureLabelsExist`;
- `classifyBatch`;
- `parseArgs`;
- `buildQuery`;
- the labeller passes;
- the backfill counters;
- the print loop of `labels`.

One algorithm works in place on an `array`: the insertion sort of the
`labels` command (`InsertAt` and `SortByName`). The query builders' `parts`
list is a `seq` value that the builder methods extend push by push.

## Model

| member | source | states |
|---|---|---|
| Errors.Error.Code | packages/core/src/errors.ts:1-41 | each error subclass carries its fixed code string; only a plain thrown error has none |
| Errors.CodeDeterminesKind | packages/core/src/errors.ts:8-41 | two errors with the same code are of the same subclass |
| Mail.Names | packages/core/src/services/labeller.ts:52 | `labels.map(l => l.name)`: one name per label, in order |
| Text.Lower | src/core/utils/filter.ts:6-7 | `toLowerCase` maps every character on its own, so the length is kept |
| Text.LowerIdempotent | src/core/utils/filter.ts:6-7 | lower-casing twice is lower-casing once |
| Text.Join | apps/cli/src/commands/suggest.ts:25 | `join(sep)` of one string is that string, and appending an item adds the separator and the item |
| Text.JoinContains | apps/cli/src/commands/suggest.ts:25 | every item occurs in the joined text |
| Text.NatToStringValue | apps/cli/src/commands/suggest.ts:25 | the decimal text of a number reads back as that number, with no leading zero |
| Text.Trim | packages/adapters/gmail/src/utils.ts:6 | `trim()` removes exactly the white space at both ends |
| Text.TrimSurrounded | packages/adapters/gmail/src/utils.ts:6 | trimming white space around a text that neither starts nor ends with white space gives that text back |
| StringMap.Get | src/adapters/gmail/provider.ts:73-86 | `Map.get` finds a key exactly when it was set, and answers a value set for it |
| StringMap.Put | src/adapters/gmail/provider.ts:78 | `Map.set`: afterwards the key maps to the value and every other key is unchanged |
| StringMap.Values | packages/core/src/services/labeller.ts:101 | `[...m.values()]` lists the values in entry order |
| StringMap.LastValue | packages/core/src/services/labeller.ts:135 | the value of the last pair with the key; absent exactly when no pair has it |
| StringMap.FromPairs | packages/core/src/services/labeller.ts:135 | `new Map(pairs)`: every key maps to the value of its last pair |
| StateStore.SliceFrom | packages/core/src/state/file.ts:31 | `slice(start)` is a suffix; a negative start counts from the end and is clamped |
| StateStore.Window | packages/core/src/state/file.ts:15-31 | `slice(-max)` keeps the newest `max` ids; a bound of 0 keeps everything, because `-0` is `0` |
| StateStore.NewIds | packages/core/src/state/file.ts:28-43 | the ids not stored, in argument order, nothing else |
| StateStore.LoadState | packages/core/src/state/file.ts:17-21 | a missing file reads as an empty record, a corrupt one throws, and a saved one reads back as saved |
| StateStore.SaveStep | packages/core/src/state/file.ts:23-25 | a successful write replaces the file; a failed one leaves it as it was |
| StateStore.MarkStep | packages/core/src/state/file.ts:28-34 | `markProcessed` throws iff the file is corrupt or unwritable, and then changes nothing; otherwise the window of old and new ids with the time stamp is saved |
| StateStore.ClearStep | packages/core/src/state/file.ts:45-47 | `clearProcessed` writes an empty id list with the time stamp, without reading the old file |
| StateStore.SetLastRunStep | packages/core/src/state/file.ts:54-58 | `setLastRun` keeps the ids and replaces the stamp; it throws on a corrupt or unwritable file |
| StateStore.NewIdsAppend | packages/core/src/state/file.ts:30 | the filter distributes over concatenation, so argument order is kept |
| StateStore.NewIdsNoneNew | packages/core/src/state/file.ts:30 | ids that are all stored add nothing |
| StateStore.MarkedKeepsAll | packages/core/src/state/file.ts:31 | while the window has room nothing is evicted, and every marked id is stored |
| StateStore.MarkedStoredOnly | packages/core/src/state/file.ts:30-31 | marking ids that are already stored leaves the list unchanged |
| StateStore.MarkedIdempotent | packages/core/src/state/file.ts:28-34 | marking the same ids twice is marking them once, while the window has room |
| StateStore.MarkedOneIsStored | packages/core/src/state/file.ts:30-31 | a single id just marked is stored, even when the window is full |
| StateStore.NewIdsNoDuplicates | packages/core/src/state/file.ts:30 | filtering keeps a list free of repetitions |
| StateStore.MarkedNoDuplicates | packages/core/src/state/file.ts:30-31 | marking distinct ids keeps the stored list free of repetitions |
| StateStore.MarkedRepeatsWithinOneCall | packages/core/src/state/file.ts:30 | a repetition inside one call is appended twice, because the filter only compares against the stored list |
| StateStore.MarkThenProcessed | packages/core/src/state/file.ts:28-38 | after a successful `markProcessed([id])`, `isProcessed(id)` holds |
| StateStore.MarkThenNothingUnprocessed | packages/core/src/state/file.ts:28-43 | after a successful `markProcessed(ids)`, `filterUnprocessed(ids)` is empty while the window has room |
| StateStore.FileStateStore.constructor | packages/core/src/state/file.ts:14-15 | the store starts on the given file; `maxProcessedIds` defaults to 5000 |
| StateStore.FileStateStore.Save | packages/core/src/state/file.ts:23-25 | the file becomes what `SaveStep` says |
| StateStore.FileStateStore.MarkProcessed | packages/core/src/state/file.ts:28-34 | the file and the error are exactly `MarkStep` of the old file |
| StateStore.FileStateStore.IsProcessed | packages/core/src/state/file.ts:36-38 | true iff the id is stored; throws iff the file is corrupt |
| StateStore.FileStateStore.FilterUnprocessed | packages/core/src/state/file.ts:40-43 | the argument ids that are not stored, in order and with duplicates kept; throws iff the file is corrupt |
| StateStore.FileStateStore.ClearProcessed | packages/core/src/state/file.ts:45-47 | the file becomes `ClearStep` of the old file |
| StateStore.FileStateStore.GetLastRun | packages/core/src/state/file.ts:49-52 | no date iff the stamp is empty, otherwise the stamp; a missing file gives no date |
| StateStore.FileStateStore.SetLastRun | packages/core/src/state/file.ts:54-58 | the file becomes `SetLastRunStep` of the old file |
| RuleMatcher.MatchesIsConjunction | src/core/utils/filter.ts:4-28 | a filter matches iff each of its single-constraint parts matches (AND semantics) |
| RuleMatcher.EmptyFilterMatchesAll | src/core/utils/filter.ts:5-27 | absent or empty constraints impose nothing, so an empty filter matches every email |
| RuleMatcher.WildcardDomain | src/core/utils/filter.ts:8-10 | `*@domain` matches iff the lower-cased sender contains `@` and the lower-cased domain |
| RuleMatcher.PlainFrom | src/core/utils/filter.ts:12-14 | any other sender pattern is a case-insensitive substring test |
| RuleMatcher.SubjectSubstring | src/core/utils/filter.ts:17-20 | the subject test is a case-insensitive substring test |
| RuleMatcher.WildcardMatchesAddress | src/core/utils/filter.ts:8-10 | an address at the domain matches its wildcard, whatever the display name and the case |
| RuleMatcher.FirstMatchFrom | src/core/utils/filter.ts:33 | the index of the first matching rule; no earlier rule matches; absent iff none matches |
| RuleMatcher.FindMatchingRule | src/core/utils/filter.ts:30-34 | undefined for absent or empty rules; otherwise a matching rule from the list, and undefined iff none matches |
| RuleMatcher.FirstMatchWins | src/core/utils/filter.ts:33 | when two rules match, the earlier one is returned |
| JsNumber.DigitRun | apps/cli/src/commands/remove.ts:29 | the longest run of decimal digits at the start of the text |
| JsNumber.HexRun | apps/cli/src/commands/remove.ts:29 | the longest run of hexadecimal digits at the start of the text |
| JsNumber.Magnitude | apps/cli/src/commands/remove.ts:29 | no value iff no digit follows the optional `0x` prefix |
| JsNumber.ParseIntSigned | apps/cli/src/commands/remove.ts:29 | leading white space and a sign before a digit are read as such |
| JsNumber.ParseIntDecimal | apps/cli/src/commands/suggest.ts:29 | a decimal numeral, with optional white space, sign and non-digit tail, reads back as its value |
| JsNumber.ParseIntNoDigits | apps/cli/src/commands/remove.ts:29 | text with no digit after the white space and the sign is NaN |
| SizeSyntax.Multiplier | packages/adapters/gmail/src/utils.ts:12 | every unit multiplies by at least 1: kb 1024, mb 1024², gb 1024³ |
| SizeSyntax.UnitOf | packages/adapters/gmail/src/utils.ts:6-13 | a recognised unit is the unit of that text |
| SizeSyntax.Lex | packages/adapters/gmail/src/utils.ts:6 | whatever the size regular expression accepts is a well-formed literal |
| SizeSyntax.LexRender | packages/adapters/gmail/src/utils.ts:6 | every well-formed literal is recognised back from its text |
| SizeSyntax.LexSound | apps/cli/src/commands/remove.ts:17 | nothing else is recognised: an accepted text is the literal's own text, with only white space before the unit |
| SizeSyntax.SizeExampleKb | apps/cli/src/commands/remove.ts:81 | the help's example `500kb` is recognised and is 512000 bytes |
| SizeSyntax.SizeExampleMb | apps/cli/src/commands/remove.ts:81 | `10mb` is recognised and is 10485760 bytes |
| SizeSyntax.SizeExampleFraction | packages/adapters/gmail/src/utils.ts:14 | a fraction is rounded down: `0.1kb` is 102 bytes |
| GmailQuery.ParseSizeIgnoresCase | packages/adapters/gmail/src/utils.ts:6 | upper- and lower-case spellings of a size mean the same |
| GmailQuery.ParseSizeOfLiteral | packages/adapters/gmail/src/utils.ts:3-15 | a literal with white space around it and before its unit is read as its exact floor value |
| GmailQuery.ParseSizeOfPlainLiteral | packages/adapters/gmail/src/utils.ts:3-15 | a literal without spaces is read as its value |
| GmailQuery.ParseSizePositive | packages/adapters/gmail/src/utils.ts:3-15 | a positive result comes only from a literal of the syntax, up to case and white space |
| GmailQuery.LabelTermSanitizes | packages/adapters/gmail/src/utils.ts:28 | `label:` plus the name, with exactly its slashes and spaces turned into dashes |
| GmailQuery.BuildGmailQuery | packages/adapters/gmail/src/utils.ts:17-47 | the pushed parts joined by spaces are the filter's terms in fixed order: age, labels, size, sender, subject, unread, read |
| GmailQuery.PushLabels | packages/adapters/gmail/src/utils.ts:26-29 | the label loop appends one sanitised `label:` term per label, in order, and nothing else |
| GmailQuery.PushSenderAndFlags | packages/adapters/gmail/src/utils.ts:37-44 | the sender, subject, unread and read terms are appended in that order, each only when its field is set |
| GmailQuery.QueryOfTerms | packages/adapters/gmail/src/utils.ts:46 | the query is `in:inbox` iff there are no terms; otherwise it starts with the first term |
| GmailQuery.QueryContainsTerm | packages/adapters/gmail/src/utils.ts:46 | every term occurs in the query |
| GmailQuery.InboxWhenUnconstrained | packages/adapters/gmail/src/utils.ts:20-46 | the query falls back to `in:inbox` iff the filter constrains nothing the query can express |
| GmailQuery.QueryNamesEveryLabel | packages/adapters/gmail/src/utils.ts:26-29 | every label of the filter is searched for |
| GmailQuery.QueryStartsWithAge | packages/adapters/gmail/src/utils.ts:20-24 | an age limit comes first in the query |
| GmailQuery.TermsGood | packages/adapters/gmail/src/utils.ts:20-44 | no term is empty, and none is the `in:` fallback |
| RemoveCommand.StrictSizeAgrees | apps/cli/src/commands/remove.ts:16-22 | the command's strict parser accepts a literal only without white space, and then agrees with the adapter's parser |
| RemoveCommand.StrictSizeOfLiteral | apps/cli/src/commands/remove.ts:16-22 | every literal written without spaces is read as its value |
| RemoveCommand.Next | apps/cli/src/commands/remove.ts:28-36 | the scan always advances, by two past an option that takes a value and has one |
| RemoveCommand.Step | apps/cli/src/commands/remove.ts:28-36 | one round of the scan moves on to `Next`, past the value when one is taken |
| RemoveCommand.ParseArgs | apps/cli/src/commands/remove.ts:24-40 | the index loop computes the scan of all arguments from the defaults |
| RemoveCommand.UntouchedOptions | apps/cli/src/commands/remove.ts:27-37 | an option keeps its value unless its flag occurs in the remaining arguments |
| RemoveCommand.DefaultLimit | apps/cli/src/commands/remove.ts:25 | without `--limit` the limit is 100 |
| RemoveCommand.FlagsStaySet | apps/cli/src/commands/remove.ts:33-35 | a boolean flag is never turned off again |
| RemoveCommand.LabelsAccumulate | apps/cli/src/commands/remove.ts:30 | labels are only appended, and each added one is the value after a `--label` |
| RemoveCommand.LabelsInOrder | apps/cli/src/commands/remove.ts:30 | the labels are exactly every value given to `--label`, in the order given, after those already held; absent only when none was held or given |
| RemoveCommand.LastValueWins | apps/cli/src/commands/remove.ts:27-37 | `--older-than`, `--larger-than`, `--from` and `--limit` end up with the last value given to them (the integer options read by `parseInt`), and keep their value when none is given |
| RemoveCommand.SwitchesSeen | apps/cli/src/commands/remove.ts:33-35 | `--unread`, `--read` and `--dry-run` are on exactly when they were on or occur at a position the scan visits |
| RemoveCommand.OptionAsValue | apps/cli/src/commands/remove.ts:32 | an option name right after `--from` is taken as its value |
| RemoveCommand.DanglingOption | apps/cli/src/commands/remove.ts:29-36 | a value-taking option at the end, with no value, is ignored |
| RemoveCommand.DateCutsAgree | apps/cli/src/commands/remove.ts:48 | `split('T')[0]` and the adapter's `slice(0, 10)` agree on an ISO timestamp |
| RemoveCommand.BuildQuery | apps/cli/src/commands/remove.ts:42-67 | the pushed parts joined by spaces are the command's terms: age, labels, size, sender, unread, read |
| RemoveCommand.PushSenderAndFlags | apps/cli/src/commands/remove.ts:62-64 | the sender, unread and read terms are appended in that order, each only when its option is set |
| RemoveCommand.TermsGood | apps/cli/src/commands/remove.ts:45-64 | no term is empty, and none is the `in:` fallback |
| RemoveCommand.InboxWhenUnconstrained | apps/cli/src/commands/remove.ts:66 | the query is `in:inbox` iff the options ask for nothing it can express |
| RemoveCommand.SameQueryAsAdapter | apps/cli/src/commands/remove.ts:42-67 | for the same constraints, the command's query has the same terms as the adapter's builder |
| RemoveCommand.SameSizeTerms | apps/cli/src/commands/remove.ts:57-60 | on sizes the strict parser accepts, both builders emit the same `larger:` term |
| ConfigSchema.Strings | src/core/config/schema.ts:12 | the strings of an array of strings, in order |
| ConfigSchema.ParseLabel | src/core/config/schema.ts:8-13 | `labelSchema` accepts a value iff it has the label shape |
| ConfigSchema.ParseCleanupRule | src/core/config/schema.ts:15-18 | `cleanupRuleSchema` accepts iff the shape fits; the result keeps more than zero days and the label name |
| ConfigSchema.FilterOf | src/core/config/schema.ts:20-30 | a filter built from accepted fields has a positive age, if it has one |
| ConfigSchema.ParseFilter | src/core/config/schema.ts:20-30 | `emailFilterSchema` accepts iff the fields fit, and the result is valid |
| ConfigSchema.ParseLabelRule | src/core/config/schema.ts:32-34 | `labelRuleSchema` accepts iff the fields fit and `labels` is non-empty |
| ConfigSchema.LabelsOf | src/core/config/schema.ts:37 | the parsed labels, one per item, in order |
| ConfigSchema.CleanupRulesOf | src/core/config/schema.ts:38 | the parsed rules, one per item, in order |
| ConfigSchema.FiltersOf | src/core/config/schema.ts:39 | the parsed filters, one per item, in order |
| ConfigSchema.ParseCoreConfig | src/core/config/schema.ts:36-42 | `coreConfigSchema` accepts iff the shape fits, and the result has at least one label and valid rules |
| ConfigSchema.ParseConfig | src/core/config/schema.ts:44-47 | `configSchema` accepts iff the core and the Gmail credentials fit; `model` is kept as given |
| ConfigSchema.StrValues | src/core/config/schema.ts:12 | one string value per string |
| ConfigSchema.StringsOfStrValues | src/core/config/schema.ts:12 | strings survive a round trip through values |
| ConfigSchema.LabelRoundTrip | src/core/config/schema.ts:8-13 | every typed label is accepted back unchanged |
| ConfigSchema.CleanupRuleRoundTrip | src/core/config/schema.ts:15-18 | a rule is accepted back iff its retention is positive |
| ConfigSchema.FilterValueField | src/core/config/schema.ts:20-30 | each known key of a filter's value holds that field |
| ConfigSchema.FilterAccepted | src/core/config/schema.ts:20-30 | the schema accepts a typed filter's value iff its age, if any, is positive |
| ConfigSchema.FilterGivenBack | src/core/config/schema.ts:20-30 | a valid filter is accepted and parsed back unchanged |
| ConfigSchema.FilterRoundTrip | src/core/config/schema.ts:20-30 | a filter is accepted back unchanged iff its age, if any, is positive |
| ConfigSchema.LabelRuleNeedsLabels | src/core/config/schema.ts:32-34 | a filter without labels is a valid filter but not a valid label rule |
| ConfigSchema.LabelValues | src/core/config/schema.ts:37 | one value per label |
| ConfigSchema.CleanupRuleValues | src/core/config/schema.ts:38 | one value per rule |
| ConfigSchema.FilterValues | src/core/config/schema.ts:39-40 | one value per filter |
| ConfigSchema.CoreConfigValueField | src/core/config/schema.ts:36-42 | each known key of a configuration's value holds that field |
| ConfigSchema.CoreConfigAccepted | src/core/config/schema.ts:36-42 | the core schema accepts a typed configuration's value iff it has a label, positive retentions and ages, and labels on every label rule |
| ConfigSchema.CoreConfigGivenBack | src/core/config/schema.ts:36-42 | a valid configuration is accepted and parsed back unchanged |
| ConfigSchema.LabelsRoundTrip | src/core/config/schema.ts:37 | a label list survives the round trip |
| ConfigSchema.CleanupRulesRoundTrip | src/core/config/schema.ts:38 | a rule list is accepted iff every rule is valid, and then comes back unchanged |
| ConfigSchema.FiltersRoundTrip | src/core/config/schema.ts:39-40 | a filter or label-rule list is accepted iff each element is valid, and then comes back unchanged |
| ConfigSchema.CoreConfigRoundTrip | src/core/config/schema.ts:36-42 | a typed configuration is accepted back unchanged iff it is valid |
| RuntimeConfig.SchemaConfigHasRuntimeShape | packages/core/src/config/schema.ts:21-27 | every configuration the full schema accepts has the runtime `Config` shape |
| RuntimeConfig.RuntimeShapeIsWeaker | packages/core/src/config/schema.ts:16-27 | the converse fails: a runtime configuration without labels, or a rule keeping zero days, is refused by the schema |
| Provider.ApplyLabelStep | packages/core/src/interfaces/email-provider.ts:12 | the message gains the label and nothing else changes; an unreachable message throws and changes nothing |
| Provider.HasLabelsResult | packages/core/src/interfaces/email-provider.ts:16 | true iff the message carries any of the ids; throws on an unreachable message |
| Provider.TrashStep | packages/core/src/interfaces/email-provider.ts:17 | the message is trashed unless it is unreachable, in which case it throws |
| Provider.Mailbox.constructor | packages/core/src/interfaces/email-provider.ts:3-18 | a fresh mailbox with no trash, no searches and no `ensureLabelsExist` call |
| Provider.Mailbox.EnsureLabelsExist | packages/core/src/interfaces/email-provider.ts:11 | answers the oracle, counts the call and changes nothing else |
| Provider.Mailbox.GetEmails | packages/core/src/interfaces/email-provider.ts:15 | answers the search oracle, logs the request and changes nothing else |
| Provider.Mailbox.ListLabels | packages/core/src/interfaces/email-provider.ts:10 | answers the listing oracle |
| Provider.Mailbox.ApplyLabel | packages/core/src/interfaces/email-provider.ts:12 | the label index changes exactly as `ApplyLabelStep` says |
| Provider.Mailbox.HasLabels | packages/core/src/interfaces/email-provider.ts:16 | answers `HasLabelsResult` |
| Provider.Mailbox.TrashEmail | packages/core/src/interfaces/email-provider.ts:17 | the trash changes exactly as `TrashStep` says |
| Labeller.Ids | packages/core/src/services/labeller.ts:55 | `emails.map(e => e.id)` |
| Labeller.Candidates | packages/core/src/services/labeller.ts:55-56 | the emails whose id is among the ids, and no others |
| Labeller.Pairs | packages/core/src/services/labeller.ts:135 | one name-to-id pair per listed label |
| Labeller.WithStatus | packages/core/src/services/labeller.ts:62-76 | the events of one status, in order |
| Labeller.WithStatusSnoc | packages/core/src/services/labeller.ts:62-76 | a new event adds to its own status only |
| Labeller.LabeledResultsSnoc | packages/core/src/services/labeller.ts:70-71 | a `'labeled'` event announces one result |
| Labeller.Started | packages/core/src/services/labeller.ts:60-62 | one `'processing'` event per candidate, numbered from 1 out of the candidate count |
| Labeller.TraceEvents | packages/core/src/services/labeller.ts:64-74 | an attempt only appends events, and none of them is `'processing'` |
| Labeller.TraceCounts | packages/core/src/services/labeller.ts:64-74 | the results an attempt adds extend the old ones, and its `'labeled'` events announce exactly the added results |
| Labeller.TurnAnnounces | packages/core/src/services/labeller.ts:60-77 | a turn begins with its own `'processing'` event and adds no other `'processing'` event |
| Labeller.TurnCounts | packages/core/src/services/labeller.ts:60-77 | the results of a turn extend the old ones and its `'labeled'` events announce exactly the added results; an `'error'` event changes neither |
| Labeller.TurnNoSkip | packages/core/src/services/labeller.ts:60-77 | a turn whose attempt only labels adds no `'skipped'` event |
| Labeller.RunAnnounces | packages/core/src/services/labeller.ts:60-62 | a loop whose turns each announce their email announces every email once, in order |
| Labeller.RunResults | packages/core/src/services/labeller.ts:62-76 | a loop whose turns each announce the results they add announces all the results it adds, in order |
| Labeller.RunNoSkip | packages/core/src/services/labeller.ts:60-77 | a loop none of whose turns adds a `'skipped'` event adds none |
| Labeller.StartedCons | packages/core/src/services/labeller.ts:60-62 | the events of a pass are the first one followed by the rest |
| Labeller.CandidatesUnprocessed | packages/core/src/services/labeller.ts:55-56 | keeping the ids `filterUnprocessed` returns keeps exactly the emails whose id is not stored |
| Labeller.CandidatesAppend | packages/core/src/services/labeller.ts:56 | the filter keeps the provider's order |
| Labeller.RuleQueryShape | packages/core/src/services/labeller.ts:144-145 | a rule's query is `label:`, its label with slashes and spaces turned into dashes, then ` before:` |
| Labeller.Labeller.constructor | packages/core/src/services/labeller.ts:37-39 | no memoised map, no events, nothing classified |
| Labeller.Labeller.EnsureLabels | packages/core/src/services/labeller.ts:41-45 | the new state and the answer are `EnsureSpec` of the old state, and the memo stays valid |
| Labeller.Labeller.LabellingFacts | packages/core/src/services/labeller.ts:64-74 | classifying adds the email to the classified list; marking is last, so a throw leaves the file as it was |
| Labeller.Labeller.AttemptFacts | packages/core/src/services/labeller.ts:99-121 | every attempt's events and results follow the trace shape, and marking is the last thing it does |
| Labeller.Labeller.StepEvents | packages/core/src/services/labeller.ts:60-77 | a turn opens with its `'processing'` event, numbered from 1, and adds no other `'processing'` event |
| Labeller.Labeller.StepResults | packages/core/src/services/labeller.ts:64-76 | the `'labeled'` event of a turn, if any, announces the one result it adds; otherwise no result is added |
| Labeller.Labeller.StepMarks | packages/core/src/services/labeller.ts:73-77 | the last event is `'error'` iff the attempt threw, and the email is marked iff it did not |
| Labeller.Labeller.LabellingResult | packages/core/src/services/labeller.ts:65-72 | a result is added iff the classifier answers, the label resolves to a truthy id and `applyLabel` succeeds; the email then carries that id |
| Labeller.Labeller.AlreadyLabelledIsSkipped | packages/core/src/services/labeller.ts:100-106 | without `force`, an email already carrying a label id is marked and skipped, never classified |
| Labeller.Labeller.UnlabelledIsClassified | packages/core/src/services/labeller.ts:100-109 | without `force`, a reachable email carrying none of the label ids is handled exactly as with `force`: it is classified |
| Labeller.Labeller.SkippedOnlyIfLabelled | packages/core/src/services/labeller.ts:100-109 | a `'skipped'` event is announced only for a reachable email that already carries one of the label ids, and it is not classified |
| Labeller.Labeller.UncheckedNeverSkips | packages/core/src/services/labeller.ts:58-78 | without the check, a turn emits no `'skipped'` event |
| Labeller.Labeller.RunAnnouncesEach | packages/core/src/services/labeller.ts:58-62 | a pass announces every candidate once, in order |
| Labeller.Labeller.RunResultsAnnounced | packages/core/src/services/labeller.ts:62-76 | the `'labeled'` events of a pass announce exactly its results, in order |
| Labeller.Labeller.UncheckedRunNeverSkips | packages/core/src/services/labeller.ts:58-78 | a pass without the check skips nothing |
| Labeller.Labeller.EnsureLabelsMemoised | packages/core/src/services/labeller.ts:41-45 | the provider is asked only while no map is memoised; once there is a map, it is the answer and the provider was asked exactly once |
| Labeller.Labeller.ProcessNewAborts | packages/core/src/services/labeller.ts:50-56 | `processNewEmails` throws, with no event and no change, iff `ensureLabels`, the search or `filterUnprocessed` throws |
| Labeller.Labeller.ProcessNewRun | packages/core/src/services/labeller.ts:50-81 | see the paragraph below the table |
| Labeller.Labeller.BackfillAborts | packages/core/src/services/labeller.ts:83-91 | `backfill` throws, with no event, iff `ensureLabels` or the search throws, or, without `force`, the state file is unreadable |
| Labeller.Labeller.BackfillRun | packages/core/src/services/labeller.ts:83-128 | see the paragraph below the table |
| Labeller.Labeller.TrashFromFacts | packages/core/src/services/labeller.ts:148-150 | trashing stops at the first email that throws; until then every email is trashed |
| Labeller.Labeller.CleanupFromFrame | packages/core/src/services/labeller.ts:137-154 | the rule loop only adds to the trash and to the search log |
| Labeller.Labeller.CleanupFromSucceeds | packages/core/src/services/labeller.ts:137-154 | the rule loop succeeds iff every rule whose label resolves gets its search answered and all its emails trashed |
| Labeller.Labeller.CleanupFromFacts | packages/core/src/services/labeller.ts:137-154 | a successful rule loop made one search per rule whose label resolves, in order, and counted every email they returned in `deleted` |
| Labeller.Labeller.CleanupFromTrashes | packages/core/src/services/labeller.ts:146-150 | after a successful rule loop, every email a rule's search returned is in the trash |
| Labeller.Labeller.CleanupFromByLabel | packages/core/src/services/labeller.ts:152 | each label's `byLabel` entry is the count of the last rule for it |
| Labeller.Labeller.CleanupFacts | packages/core/src/services/labeller.ts:130-157 | see the paragraph below the table |
| Labeller.Labeller.TryEmail | packages/core/src/services/labeller.ts:99-121 | the `try` body changes the state exactly as `Attempt` says |
| Labeller.Labeller.ProcessAll | packages/core/src/services/labeller.ts:93-125 | the loop over the candidates ends in the state `RunFrom` computes |
| Labeller.Labeller.ProcessNewEmails | packages/core/src/services/labeller.ts:50-81 | the new state and the answer are `ProcessNewSpec` of the old state, and the memo stays valid |
| Labeller.Labeller.Backfill | packages/core/src/services/labeller.ts:83-128 | the new state and the answer are `BackfillSpec` of the old state, and the memo stays valid |
| Labeller.Labeller.Cleanup | packages/core/src/services/labeller.ts:130-157 | the new state and the answer are `CleanupSpec` of the old state, and the memo stays valid |
| Labeller.Labeller.CleanupRule | packages/core/src/services/labeller.ts:138-153 | one round of the rule loop: an error ends in the state and error `CleanupFrom` gives; a success leaves the rest of the loop to compute the same outcome |
| Labeller.Labeller.TrashAll | packages/core/src/services/labeller.ts:148-150 | the trash and the error are `TrashFrom` of the old trash; labels, searches and label checks are unchanged |
| GmailProvider.Wrap | src/adapters/gmail/provider.ts:27-29 | `Gmail <operation> failed`, a `ProviderError` of provider `gmail` with code `PROVIDER_ERROR` and the cause |
| GmailProvider.Wrapped | src/adapters/gmail/provider.ts:27-29 | a success passes through; a failure becomes `Wrap` of its cause |
| GmailProvider.ExcludeTerms | src/adapters/gmail/provider.ts:113 | one `-label:` term per excluded label, with its spaces turned into dashes |
| GmailProvider.SearchQueryShape | src/adapters/gmail/provider.ts:110-113 | the query starts with the caller's query, or `in:inbox -label:SENT` when that is falsy; it is exactly that with no exclusions; it contains every exclusion term |
| GmailProvider.HeaderValue | src/adapters/gmail/provider.ts:131-134 | the value of the first header with that name, no earlier header having it; absent when no header has it |
| GmailProvider.OrElse | src/adapters/gmail/provider.ts:130-134 | `value \|\| fallback` |
| GmailProvider.Summary | src/adapters/gmail/provider.ts:128-135 | id from the listing; subject, sender and date are the first such header's value when it is non-empty, else `(no subject)`, empty and empty; thread and snippet default to empty |
| GmailProvider.FetchFrom | src/adapters/gmail/provider.ts:123-136 | the inner loop only appends, never past `max`, and only summaries of listed messages that have an id |
| GmailProvider.IdBearing | src/adapters/gmail/provider.ts:124 | the messages that have an id, in page order, each with an id |
| GmailProvider.Take | src/adapters/gmail/provider.ts:124-125 | a prefix of the sequence, of length min(n, its length), empty when n is not positive |
| GmailProvider.Summaries | src/adapters/gmail/provider.ts:126-135 | one summary per message, in order, each built from that message's own metadata |
| GmailProvider.FirstFailure | src/adapters/gmail/provider.ts:126 | no failure exactly when every lookup succeeds; a failure is the error of one of the lookups |
| GmailProvider.FetchFromContents | src/adapters/gmail/provider.ts:123-136 | the inner loop succeeds iff every due message (those with an id, as many as there is room for) can be looked up, and then appends exactly their summaries, in page order |
| GmailProvider.FetchFromFailure | src/adapters/gmail/provider.ts:123-136 | a failing inner loop fails with the error of the first due lookup that fails |
| GmailProvider.CollectFacts | src/adapters/gmail/provider.ts:118-141 | the paging loop only appends, stays within `max`, and asks each page for 1-100 messages of the query, the first for min(100, what is missing) |
| GmailProvider.Grow | src/adapters/gmail/provider.ts:119-136 | one page only appends to the summaries and never past `max` |
| GmailProvider.Replay | src/adapters/gmail/provider.ts:118-141 | answering requests in turn only appends to the summaries and never past `max` |
| GmailProvider.CollectStep | src/adapters/gmail/provider.ts:118-141 | one round asks for the page at the current token; it goes on to the next page only after a page with messages, a next-page token and successful lookups, and otherwise ends with that page's summaries |
| GmailProvider.CollectRequests | src/adapters/gmail/provider.ts:118-141 | every request is for the query and for min(100, `max` minus the summaries the earlier pages gave) |
| GmailProvider.CollectChain | src/adapters/gmail/provider.ts:118-141 | the requests ask first for the page at the starting token, then each for the page the previous answer's next-page token names, which exists and follows a page with messages |
| GmailProvider.CollectReplays | src/adapters/gmail/provider.ts:118-141 | a successful paging loop returns exactly the summaries its pages contribute, in order, cut at `max` |
| GmailProvider.PagingStops | src/adapters/gmail/provider.ts:118-141 | a second page is requested only after a page with messages and a next-page token |
| GmailProvider.GetEmailsFacts | src/adapters/gmail/provider.ts:108-145 | at most `maxResults` (default 50) summaries, each with an id and a subject; no request when it is 0; a failure is a Gmail provider error |
| GmailProvider.GetEmailsContents | src/adapters/gmail/provider.ts:108-145 | `getEmails` asks for the query's pages in turn from `pageToken`, each for min(100, what is still missing), and on success returns exactly those pages' summaries of messages with an id, in order, cut at `maxResults` |
| GmailProvider.FindLabel | src/adapters/gmail/provider.ts:76 | the first existing label of exactly that name, no earlier label having it; absent iff there is none |
| GmailProvider.Resolve | src/adapters/gmail/provider.ts:76-87 | the existing id when one exists; otherwise creation, which fails iff the request fails, and records an id iff one is returned |
| GmailProvider.EnsureFromKeeps | src/adapters/gmail/provider.ts:75-88 | a name the remaining labels do not carry keeps its entry |
| GmailProvider.EnsureFromMaps | src/adapters/gmail/provider.ts:75-88 | with distinct names, each label ends up with the id its iteration records |
| GmailProvider.EnsureFromCreates | src/adapters/gmail/provider.ts:80-84 | creation requests are made only for configured labels that lack an existing id |
| GmailProvider.EnsureLabelsMapping | src/adapters/gmail/provider.ts:69-92 | see the paragraph below the table |
| GmailProvider.GmailProvider.constructor | src/adapters/gmail/provider.ts:31-36 | the client starts with the configured tokens, or none, and no requests |
| GmailProvider.GmailProvider.IsAuthenticated | src/adapters/gmail/provider.ts:45-51 | true iff an access token or a refresh token is non-empty |
| GmailProvider.GmailProvider.Authenticate | src/adapters/gmail/provider.ts:57-59 | the credentials are replaced, and nothing else changes |
| GmailProvider.GmailProvider.ListLabels | src/adapters/gmail/provider.ts:61-67 | one label per listed label, with a missing name or id read as empty; a failure is wrapped as `listLabels` |
| GmailProvider.GmailProvider.EnsureLabelsExist | src/adapters/gmail/provider.ts:69-92 | the map and the creation log are `EnsureSpec` of the old log |
| GmailProvider.GmailProvider.GetEmails | src/adapters/gmail/provider.ts:108-145 | the answer and the request log are `GetEmailsSpec` of the old log |
| GmailProvider.GmailProvider.FetchPage | src/adapters/gmail/provider.ts:123-136 | the inner `for` loop computes `FetchFrom` |
| GmailProvider.GmailProvider.HasLabels | src/adapters/gmail/provider.ts:147-154 | true iff some asked id is among the message's label ids; a failure is wrapped as `hasLabels` |
| GmailProvider.GmailProvider.Modify | src/adapters/gmail/provider.ts:94-106 | one request is logged; a failure is wrapped as `applyLabel`, `removeLabel` or `trashEmail` |
| AiClassifier.LabelLines | packages/adapters/ai-sdk/src/classifier.ts:12 | one catalog line `- name: description` per label, in order |
| AiClassifier.BuildPromptStarts | packages/adapters/ai-sdk/src/classifier.ts:14 | the prompt starts with the fixed introduction |
| AiClassifier.BuildPromptEnds | packages/adapters/ai-sdk/src/classifier.ts:27-34 | the prompt ends with the email's sender, subject and snippet |
| AiClassifier.BuildPromptListsLabels | packages/adapters/ai-sdk/src/classifier.ts:12-16 | the prompt lists every label as `- name: description` |
| AiClassifier.BuildPromptAdditional | packages/adapters/ai-sdk/src/classifier.ts:25 | the additional rules are appended iff a non-empty system prompt is given |
| AiClassifier.Classify | packages/adapters/ai-sdk/src/classifier.ts:43-69 | success is the model's answer, and only when the schema accepts it (1-3 catalog labels, confidence in [0, 1]); a failure is a `ClassificationError` for this email |
| AiClassifier.EmptyCatalogFails | packages/adapters/ai-sdk/src/classifier.ts:48 | with no labels, every classification fails |
| AiClassifier.NothingAcceptedFromNoNames | packages/adapters/ai-sdk/src/classifier.ts:48 | an empty label enumeration accepts no answer |
| AiClassifier.FirstLow | packages/adapters/ai-sdk/src/classifier.ts:73 | the first label whose lower-cased name contains `low`; absent iff none does |
| AiClassifier.FallbackLabel | packages/adapters/ai-sdk/src/classifier.ts:73 | `Low Priority` with no labels; otherwise a catalog name: one containing `low` when any does, else the first |
| AiClassifier.IdSetSnoc | packages/adapters/ai-sdk/src/classifier.ts:74-82 | the ids of the emails grow one email at a time |
| AiClassifier.BatchCoversEveryEmail | packages/adapters/ai-sdk/src/classifier.ts:72-83 | every email id gets an entry, and no other key does |
| AiClassifier.BatchLastWins | packages/adapters/ai-sdk/src/classifier.ts:74-82 | an id's entry is the outcome of its last email |
| AiClassifier.BatchEntriesValid | packages/adapters/ai-sdk/src/classifier.ts:71-84 | every entry has 1-3 catalog labels, or just `Low Priority` when the catalog is empty |
| AiClassifier.ClassifyBatch | packages/adapters/ai-sdk/src/classifier.ts:71-84 | the loop computes the `Batch` fold, whose keys are exactly the email ids |
| BackfillCommand.FirstPlain | apps/cli/src/commands/backfill.ts:9 | the first argument not starting with `--`; absent iff there is none |
| BackfillCommand.Query | apps/cli/src/commands/backfill.ts:9 | never empty; either `in:inbox -label:SENT` or a plain argument |
| BackfillCommand.Tally | apps/cli/src/commands/backfill.ts:21-46 | `labeled` counts the `'labeled'` events and `skipped` the `'skipped'` ones |
| BackfillCommand.LabeledCount | apps/cli/src/commands/backfill.ts:35-38 | there are as many `'labeled'` events as label results |
| BackfillCommand.Run | apps/cli/src/commands/backfill.ts:7-56 | no tokens throws first; one search for 250 emails of the query; `labeled` equals the results; with `--force` nothing is skipped |
| SuggestCommand.Entries | apps/cli/src/commands/suggest.ts:25 | one entry per email, numbered by position |
| SuggestCommand.EntryShape | apps/cli/src/commands/suggest.ts:25 | an entry opens with its 1-based number and the sender, and ends with a preview of at most 100 characters that begins the snippet |
| SuggestCommand.SummarizeSnoc | src/cli/commands/suggest.ts:27-29 | no email gives no text; one more email adds a blank line and its entry, numbered after the others |
| SuggestCommand.SummarizeListsEach | apps/cli/src/commands/suggest.ts:24-26 | every email's numbered entry is in the sample text |
| SuggestCommand.FirstMaxArg | apps/cli/src/commands/suggest.ts:29 | the first argument starting with `--max=`; absent iff there is none |
| SuggestCommand.MaxText | apps/cli/src/commands/suggest.ts:29 | the text between the first and second `=`, or `200`: never empty and without `=` |
| SuggestCommand.DefaultMaxValue | apps/cli/src/commands/suggest.ts:29 | the default reads as 200 |
| SuggestCommand.MaxEmailsAbsent | apps/cli/src/commands/suggest.ts:29 | without a `--max=` argument, 200 emails |
| SuggestCommand.MaxEmailsEmpty | apps/cli/src/commands/suggest.ts:29 | an empty `--max=` gives 200 emails |
| SuggestCommand.MaxEmailsGiven | apps/cli/src/commands/suggest.ts:29 | `--max=N` gives N emails |
| SuggestCommand.MaxEmailsGivenWithTail | apps/cli/src/commands/suggest.ts:29 | `--max=N=...` also gives N: text after a second `=` is dropped |
| SuggestCommand.MaxArgValue | apps/cli/src/commands/suggest.ts:29 | the value of `--max=` followed by digits is those digits |
| ListLabels.UserLabelsExactly | src/cli/commands/list-labels.ts:7-19 | the filter keeps every label that is neither `CATEGORY_` nor one of the ten system labels, as often as listed, and nothing else |
| ListLabels.InsertAt | src/cli/commands/list-labels.ts:22 | one insertion step of the in-place sort leaves a longer sorted prefix and the same multiset |
| ListLabels.SortByName | src/cli/commands/list-labels.ts:22 | the array ends sorted by name under the collation and is a permutation of what it held |
| ListLabels.Lines | apps/cli/src/commands/list-labels.ts:18-20 | one line per label, in order, indented by two spaces |
| ListLabels.SortedUserLabels | apps/cli/src/commands/list-labels.ts:15-18 | exactly the user labels, as often as listed, sorted by name |
| ListLabels.List | apps/cli/src/commands/list-labels.ts:7-22 | see the paragraph below the table |

Some rows are too long for a table cell.

**Labeller.Labeller.ProcessNewRun.**
- There is one search, for 50 emails unless told otherwise, excluding every
  configured label.
- It announces exactly the fetched emails whose ids are not stored, in the
  provider's order.
- It skips none.
- `processed` counts the results, and they are the ones the `'labeled'`
  events announce.

**Labeller.Labeller.BackfillRun.**
- There is one search: 250 emails of `in:inbox -label:SENT` unless told
  otherwise.
- With `force`, it announces every email and skips none.
- Without `force`, it announces only the emails whose ids are not stored.
- The results are the ones announced.

**Labeller.Labeller.CleanupFacts.**
- Only the trash and the search log change.
- It throws iff the listing throws or a resolving rule fails.
- A label resolves to the id of the last listed label of that name.
- `deleted` counts all trashed emails.
- Each label's entry is the count of its last rule.

**GmailProvider.EnsureLabelsMapping.** It assumes distinct names.
- Each name maps to the id of the existing label of that name, else to the
  created id.
- No other name is mapped.
- Only labels that lack an id are created.
- A failure is wrapped as `ensureLabelsExist`.

**ListLabels.List.**
- With no tokens it throws before listing.
- A failed listing is passed on.
- Otherwise the listing holds exactly the user labels, sorted by name.
- There is one indented line per label, and the total counts them.

## Left out

- Network calls, the OAuth flow (`getAuthUrl`, the token exchange, token
  refresh), the file system and console output. Gmail, the language model and
  the state file are oracles or parameters. The commands' token files become
  a flag saying whether tokens were found.
- Clocks. `new Date()`, `toISOString` and the date arithmetic of cutoffs are
  parameters (`now`, `daysAgo`, `cutoffFor`). These parameters are total, so
  the `RangeError` that `toISOString` throws for a date out of range (a very
  large positive `olderThan` or `retentionDays`) is not modelled.
- The 500 ms pause every ten emails in `backfill`. It affects timing only.
- Exceptions thrown by the `onProgress` observer. The observer is a log of
  events and never throws.
- Floating point. Sizes are computed in exact decimal arithmetic, which
  agrees with `Math.floor(parseFloat(n) * m)` except where the double rounds.
  `retentionDays` and `olderThan` are exact reals.
- `Number.parseInt`: precision loss on numerals above 2^53 is not modelled;
  integers are unbounded.
- Lower: only ASCII letters are lower-cased. Unicode case mapping is not
  modelled.
- Strings are sequences of `char`, not UTF-16 code units. `slice` counts
  `char`s.
- The rendering of numbers in exponent form, which JavaScript uses above
  10^21. `NatToString` always writes plain decimal digits.
- Regular-expression evaluation of the filters' `subjectRegex` and
  `snippetRegex`. It is an oracle parameter.
- `localeCompare`. It is a parameter `le`, required only to be total and
  transitive.
- ListLabels.SortByName: the stability of `Array.prototype.sort` is not
  stated.
- The search behind the labeller's `getEmails` is a fixed oracle. The
  mailbox's label index does not feed back into what later searches return.
- GmailProvider.GetEmails: page tokens are modelled only by a rank that each
  next-page token lowers. This gives the loop a termination measure.
  Nothing else about page tokens is modelled, so a server that hands out
  tokens forever is excluded.
- The language model is a deterministic function of prompt and temperature.
  Its nondeterminism and `generateObject`'s repair of answers are not
  modelled.
- AiClassifier.ClassifyBatch: the result is a Dafny `map`. The insertion
  order of the JavaScript `Map` is not modelled.
- GmailProvider.EnsureLabelsMapping is stated for distinct configured label
  names. With a repeated name the later label wins, and a missing label may
  be created twice; the model computes that case but no lemma states it.
- The `suggest` command beyond its email sample and `--max=` argument: the
  fetch, the language model call, the printing and the file written.
- The `labels` command's heading and total text, which differ between the
  two copies. Only the label lines and the total count are modelled.
- The interface of src/core/interfaces/ai-classifier.ts is not part of this
  model. The classifier of the `ai-sdk` adapter is modelled, with its own
  result type.
- The query builders' `parts.push`: `parts` is a local `seq` value that
  each push replaces with a longer one. Nothing else holds the array, so no
  aliasing is lost.
- The command-line wiring: `run`, `cleanup`, `auth` and the body of `remove`.
