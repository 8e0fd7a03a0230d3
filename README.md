# Penalty monitor: alert rules and dedup

A Dafny model of the core of a Discord bot that polls a live-football scores
feed and posts an alert to a channel whenever a match event looks like a
penalty. The model covers `bot/events.py`:

- the pure helpers `normalizar_chave`, `formatar_tempo`,
  `criar_chave_evento` and `ocorreu_dentro_da_area`;
- the ordinal-penalty pattern `PENALTY_ORDINAL_REGEX` and the vocabulary
  table `EVENTOS_CAPTURADOS`;
- the key file as a value (`carregar_eventos` / `salvar_eventos`);
- one polling cycle of `check_events`. A cycle drops finished matches,
  builds the `jogos_ativos` dictionary and looks up the home and away
  names. It then classifies every event under the three rules, in order,
  and raises at most one alert per new dedup key.

Modules, one file each:

- `Strings` (`strings.dfy`) models the parts of Python's `str` that the
  rules use: `lower()`, `strip()`, `in`, `str(int)` and `replace`.
- `Feed` (`feed.dfy`) is the JSON feed. Every field is optional, `str()`
  and truthiness follow Python.
- `Keys` (`keys.dfy`) holds the time format, key construction,
  normalisation and the key file.
- `Rules` (`rules.dfy`) holds the vocabulary, the ordinal pattern, the
  in-box heuristic and the three-way classification.
- `Cycle` (`cycle.dfy`) holds the live-match dictionary, team names,
  alerts, the dedup set and the properties of a cycle and of a run of
  cycles.

The cycle is imperative in the source, and the model keeps that form.
`Cycle.CollectActive`, `Cycle.HandleEvent`, `Cycle.HandleMatch`,
`Cycle.HandleMatches` and `Cycle.RunCycle` are methods, the last four nested
the way the source's loops are. Each is proved equal to a specification
function (`Collected`, `Step`, `OverEvents`, `OverMatches`, `Poll`), and the dedup properties are
proved as lemmas about those functions. An alert is modelled as the data a message
carries: the rule, the two team names, the time, the canned fragment or
verbatim addition, the location, and the key recorded for it.

Three details of the code that are easy to misread:

- The zone test is substring containment (`"defensive" in zone`), not
  equality.
- The vocabulary lookup is case-sensitive and exact after `strip()`.
- A team that is present but has no `name` prints as "None". Only a side
  that no participant plays on gives "Desconhecido".

## Model

| member | source | states |
|---|---|---|
| Keys.NormalizeIsLower | bot/events.py:29-31 | for `Keys.Normalize` (`normalizar_chave`) and `Strings.Lower` (`str.lower()`): normalising is exactly lower-casing, because replacing "Penalty" by itself changes nothing |
| Keys.NormalizeIdempotent | bot/events.py:29-31 | normalising twice equals normalising once, and every normalised key is a fixed point |
| Strings.ReplaceByItself | bot/events.py:31 | `s.replace(p, p) == s` for every non-empty pattern |
| Keys.LoadKeys | bot/events.py:33-39 | a missing file or one that is not valid JSON loads as the empty set; otherwise the loaded set is exactly the normalised stored keys (each stored key is in it after normalisation, and each member comes from a stored key); every loaded key is normal |
| Keys.SaveThenLoad | bot/events.py:33-47 | writing a set of normal keys as a list in any order and loading it back gives the same set |
| Keys.FormatTimeSeparatesClocks | bot/events.py:49-56 | for `Keys.FormatTime` (`formatar_tempo`, printing with `Feed.Display` and testing stoppage time with `Feed.Truthy`): for whole-minute events, two printed times are equal if and only if minute and (falsy-as-zero) stoppage time are equal |
| Keys.FormatTimeExamples | bot/events.py:49-56 | minute 43 with no stoppage prints "43'"; 45 with stoppage 2 prints "45'+2'"; an absent minute prints "?'" |
| Strings.DigitsRoundTrip | bot/events.py:53-55 | for `Strings.Decimal` (`str(int)`, as the f-strings print a number): the decimal text of a minute reads back as the same number |
| Keys.EventKey | bot/events.py:58-60 | the key is the lower-cased "<fixture>_<addition>_<time>" and normalising it changes nothing |
| Rules.BoxTypesAreCaptured | bot/events.py:20-25 | every type the in-box rule accepts ("Foul", "Yellow Card", "Red Card") has an entry in the vocabulary, so the lookup cannot fail |
| Rules.OrdinalPenaltyMeansSplit | bot/events.py:18 | the recogniser `Rules.IsOrdinalPenalty` accepts a text if and only if it splits into one or more digits, a suffix st/nd/rd/th and " Penalty", in any case, with nothing else after except one final newline |
| Rules.StrippedTailIsExact | bot/events.py:150-172 | on a stripped addition the final-newline allowance of `$` never applies: the tail is exactly " penalty" |
| Rules.OrdinalAcceptsSecond | bot/events.py:18 | "2nd Penalty" matches |
| Rules.OrdinalAcceptsUpperCase | bot/events.py:18 | "2ND PENALTY" matches (case-insensitive) |
| Rules.OrdinalNeedsPenaltyEnding | bot/events.py:18 | anchored at the end: for any text whose last character is neither "y", "Y" nor a newline, `Rules.IsOrdinalPenalty` is false |
| Rules.OrdinalRejectsTrailingText | bot/events.py:18 | "22nd Penaltyx" does not match (anchored at the end) |
| Rules.OrdinalRejectsMissingNumber | bot/events.py:18 | "nd Penalty" and "x2nd Penalty" do not match (at least one digit, anchored at the start) |
| Rules.InBoxEighteenYards | bot/events.py:62-79 | for `Rules.OccurredInBox` (`ocorreu_dentro_da_area`, reading each field with `Feed.FieldText`, `str(meta.get(field, ""))`): any location that contains "18 yds" or "18-yard" at some offset, in any case, puts the event in the box, whatever its zone and description |
| Rules.InBoxDefensiveZone | bot/events.py:62-79 | a zone that contains "defensive" and a description that contains "box", at any offsets and in any case, put the event in the box, whatever its location |
| Rules.InBoxAttackingBareBox | bot/events.py:62-79 | the single input with location "", zone "attacking" and description "box" is not in the box |
| Rules.InBoxAttackingOppositionBox | bot/events.py:62-79 | a zone that contains "attacking" and a description that contains "opposition box", at any offsets and in any case, put the event in the box, whatever its location |
| Rules.InBoxOnlyIf | bot/events.py:62-79 | the other direction: a location with neither marker, a zone without "defensive" and a description without "opposition box" (all in any case) put the event outside the box, whatever else they say; so an attacking zone with a bare "box" never counts |
| Strings.Contains | bot/events.py:74-79 | `p in s` holds if and only if `p` occurs in `s` at some offset |
| Strings.Strip | bot/events.py:150-151 | for `Rules.Addition` and `Rules.Kind` (`str(evento.get(...)).strip()`, the field read with `Feed.FieldText`): the result is a slice of the input with only whitespace cut on both sides, and it begins and ends with non-whitespace |
| Rules.ClassifyFirstMatchWins | bot/events.py:159-185 | for `Rules.Classify`: vocabulary verdict if and only if the addition is in the table; ordinal if and only if not in the table and the pattern matches; in-box if and only if neither, the type is a box type and the event is in the box; the fragment comes from the table |
| Rules.FoulAdditionNeverInBox | bot/events.py:159-185 | an event whose addition is "Foul" always takes the vocabulary branch, never the in-box one |
| Cycle.CollectActive | bot/events.py:119-131 | the loop builds exactly the dictionary `Cycle.Collected` defines: finished matches (`Cycle.IsFinished`) skipped, a repeated id overwriting its entry in place |
| Cycle.AssignContents | bot/events.py:121-131 | for `Cycle.Assign` (`jogos_ativos[fixture_id] = ...`, keyed by `Cycle.FixtureId`, `str(jogo.get('id'))`): assigning an id keeps ids distinct, adds the new entry and removes exactly the old entry with that id |
| Cycle.CollectedDistinct | bot/events.py:119-131 | the active dictionary holds each fixture id once |
| Cycle.CollectedSound | bot/events.py:119-131 | every entry is the last live match of the feed carrying its id |
| Cycle.CollectedComplete | bot/events.py:119-131 | the last live match under each id is in the dictionary |
| Cycle.CollectedIgnoresFinished | bot/events.py:124-125 | the dictionary equals the one built from the live matches alone |
| Cycle.FinishedMatchesRaiseNothing | bot/events.py:124-125 | a feed whose matches all satisfy `Cycle.IsFinished` (status FT, AOT or POST) raises no alert and records no key |
| Cycle.TeamName | bot/events.py:137-146 | "Desconhecido" when no participant plays on that side, otherwise the name of the first one that does |
| Cycle.HandleEvent | bot/events.py:150-198 | one event updates the dedup set and the sent alerts exactly as `Step` says, and the counter grows by the number of alerts it sent |
| Cycle.StepExtends | bot/events.py:153-198 | for `Cycle.Step` (with the alert `Cycle.AlertFor` builds, the event key `Cycle.KeyOf` (`chave`) and the in-box key `Cycle.AreaKeyOf` (`chave_area`)): one event sends at most one alert, and only under a key not recorded before, which it then records |
| Cycle.HandleMatch | bot/events.py:149-198 | the loop over one match's events leaves the set and the alerts as `OverEvents` defines them, and the counter grows by the alerts sent |
| Cycle.HandleMatches | bot/events.py:133-198 | the loop over the active matches leaves the set and the alerts as `Cycle.OverMatches` defines them, and the counter equals the number of alerts |
| Cycle.RunCycle | bot/events.py:113-199 | one poll leaves the dedup set and the alerts sent exactly as `Cycle.Poll` defines them (a response without a match list changes nothing), and the counter equals the number of alerts |
| Cycle.PollCounts | bot/events.py:113-199 | after one poll the loaded set is still contained in the new set, and the set has grown by exactly as many keys as alerts were sent |
| Cycle.OverEventsExtends | bot/events.py:149-198 | a match's events send at most one alert each, each under a new and distinct key |
| Cycle.OverMatchesExtends | bot/events.py:134-198 | over all active matches alerts are only appended, each recording one new distinct key |
| Cycle.CycleExtends | bot/events.py:133-198 | a cycle only adds keys, one per alert and none already known, so the counter equals the number of keys added |
| Cycle.RunNeverRepeats | bot/events.py:103-199 | for `Cycle.Run` (the `while not bot.is_closed()` loop, polls sharing one dedup set): across any sequence of polls no key is alerted twice, and no key loaded at start-up is alerted at all |
| Cycle.StepIgnoresSent | bot/events.py:150-198 | what one event does depends only on the dedup set: with earlier alerts already sent, it records the same key and sends the same alert after them |
| Cycle.PollIgnoresSent | bot/events.py:113-199 | a poll's new keys and alerts do not depend on the alerts sent before it (lifted from one event through a match's events and all matches) |
| Cycle.RunIsSuccessivePolls | bot/events.py:106-199 | `Cycle.Run` is successive `RunCycle` polls: each poll starts from the set the previous one left and no alerts, and the run's alerts are the polls' alerts one after another |
| Cycle.StepCovers | bot/events.py:153-198 | after an event is processed it would raise nothing again, and an event already covered changes nothing |
| Cycle.CycleIdempotent | bot/events.py:153-198 | processing the same snapshot a second time changes nothing, and from the resulting set it raises no alert |
| Cycle.RunKeepsKeysNormal | bot/events.py:103-200 | a set of normal keys stays normal through every poll, so saving and reloading it is lossless |
| Cycle.OneExactEvent | bot/events.py:155-169 | from an empty set, a live match whose only event takes the vocabulary branch sends exactly that event's alert and records only its key |
| Cycle.FoulAt43RaisesOneAlert | bot/events.py:118-169 | one live match with a "Foul" at minute 43, from an empty set, sends exactly one vocabulary alert naming both teams and time "43'", and records the key "1_foul_43'" |

## Left out

- Keys.LoadKeys: only the failures the source catches (a missing file, text that is not JSON) are modelled, as the `None` input. A file that cannot be opened for another reason, one that is not UTF-8, a JSON list holding a non-string, or a top-level JSON value that cannot be iterated (a number, `true`, `false` or `null`) raises past the `except` clause, and `check_events` stops; those inputs are not modelled. Neither is a failed write in `salvar_eventos`, which the source reports and ignores.
- Fetching the feed (`fetch_json`), the HTTP status and timeout handling, and the sleep and cadence between polls: I/O and clocks. A failed or invalid response is the `None` input of `Cycle.Poll`.
- `channel.send` and the message text, emoji and `@here` mention: an alert is the data the message carries. A send that raises is not modelled.
- The catch-all `except` of the polling loop and the error log: the model has no exceptions. A `meta` or `participants` entry whose shape makes the source raise (a `meta` that is not an object, say) is not representable in the feed datatypes.
- The writing side of `salvar_eventos`: the list order is arbitrary, so `Keys.SaveThenLoad` takes any list holding exactly the set's keys.
- Floating-point numbers in the feed: `Feed.Value` has integers, booleans, strings and null only.
- Strings.Lower: only ASCII letters are case-mapped. Python's `lower()`, `re.IGNORECASE` and `\d` also act on non-ASCII characters.
- Strings.Replace: requires a non-empty pattern. The only call, with "Penalty", meets it.
- Bot start-up, channel lookup and `bot.is_closed()`: the model begins with a loaded set and a sequence of polls.
