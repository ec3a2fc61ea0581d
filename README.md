# Maidle — a verified model of the guess-the-song game engine

Maidle is a chat plugin for a rhythm-game song catalog. In each chat group,
`/maidle start` secretly picks a target song. `/maidle <title | alias | id>`
is a guess. The answer marks each field of the guessed song against the
target: title, chart types, artist, genre, version era, BPM, chart designer
and chart level. Each mark is "equal", "mismatch" or a direction. A guess
that names no song costs nothing. A wrong song costs one of ten tries. The
game ends on the right song, on the last try, or on `/maidle end`, which
reveals the target.

This project models that engine, `main.py`, in Dafny:

- `songs.dfy` (module `Songs`): the catalog records. Fields the source reads
  with `.get` are `Option`s. `version` and `bpm` go through Python's `int()`,
  so they are `Scalar`s: absent, integer, float or text.
- `catalog.dfy` (module `Catalog`): resolving a guess to the first song it
  names (`FirstMatch`, and the loop `Resolve`), and the version-era table
  built at load time (`VersionMap`).
- `charts.dfy` (module `Charts`): `select_surface` (the representative chart:
  highest tier, ties broken by level, Python's `max` keeping the first
  maximum). Also the chart-type signature ("SD", "DX", "SD/DX").
- `marks.dfy` (module `Marks`): `cmp_mark`, `ver_mark`, `bpm_mark`,
  `lvl_mark` and `ver_title`. Each has its numeric path and its fallback.
- `engine.dfy` (module `Engine`): the command state machine. `Step` is a
  pure function from the table of running games to a reply and a new table.
  Class `Maidle` keeps that table in its field `games`. Its method `Command`
  updates the field in place and is proved to do exactly what `Step` says.
  Lemmas about `Step` state the game's rules.

Behaviour of the code that the model keeps, including the less obvious cases:

- **Resolve precedence.** A guess is checked against the id, the title and
  the aliases of each song in turn, so the first song in catalog order that
  matches any of the three wins. An id match on a later song does not beat a
  title or alias match on an earlier one (`ResolveFindsNamedSong`).
- **Era titles.** Two versions in the same hundred-block show the same era
  title only when the version table has that era. Otherwise each version
  shows its own raw value (`VerTitleOutsideTable`).
- **Winning marks.** A guess wins when its id equals the target's id. In a
  catalog whose ids are distinct, such a guess is the target itself, so all
  its marks are Equal (`CorrectGuessAllEqual`).
- **Tie-breaking.** Among charts of the same highest tier and level, the
  first one in the mapping's order is shown, as Python's `max` keeps the first
  maximum (`RepresentativeIsFirstBest`).
- **Tier filter.** A chart's missing tier ranks as -1 when looking for the
  highest tier. But the tie filter compares the raw field, so a missing tier
  and an explicit -1 are different groups: the shown chart has the difficulty
  field of the first highest-ranked chart (`Representative`), and a chart
  without a tier listed first is shown even beside a higher-level chart of
  tier -1 (`MissingTierIsNotMinusOne`).

## Model

| member | source | states |
|---|---|---|
| `Catalog.FirstMatch` | main.py:107-111 | the result is None exactly when no song is named by the text (by str(id), title or alias); otherwise it is a song that matches and no earlier song matches |
| `Catalog.Resolve` | main.py:107-111 | the scan-and-break loop returns exactly the first song in catalog order that the guess names, and None only when none does |
| `Catalog.ResolveFindsNamedSong` | main.py:108-111 | a text naming the song at index i resolves to that song when no earlier song is named by it (precedence is per song, not per key kind) |
| `Songs.Digits` | main.py:109 | the digits of a natural number, all decimal digits, starting with '0' exactly for zero, which is written "0" |
| `Songs.DigitsRoundTrip` | main.py:109 | reading back the decimal digits of a natural number gives the number |
| `Songs.Decimal` | main.py:109 | str() of an integer: a leading minus exactly for negatives, then digits without a leading zero (except for 0 itself) that read back as the number |
| `Songs.Show` | main.py:109 | str() of an id: a string id as it is; a numeric id written as its decimal, which no other integer shares |
| `Catalog.Matches` | main.py:109 | a song is named by a text exactly when the text is one of its keys (str(id), title or an alias); distinct keys mean disjoint key sets |
| `Catalog.ResolveEveryKey` | main.py:109 | in a catalog with distinct keys, every song is found by its id string, its title and each alias |
| `Catalog.DistinctKeysDistinctIds` | main.py:109 | a catalog whose keys (id strings, titles, aliases) are distinct has distinct ids, so the winning-marks lemma applies to it |
| `Catalog.VersionMap` | main.py:21 | the last entry of the versions list always has its version in the table, mapped to its title (absent titles stored as None) |
| `Catalog.VersionMapKeys` | main.py:20-21 | the version table's keys are exactly the listed versions |
| `Catalog.VersionMapLastWins` | main.py:21 | a version listed more than once maps to the title of its last entry |
| `Charts.FlattenContents` | main.py:66-70 | the flattened list holds exactly the charts of all groups, each tagged with its own group's type |
| `Charts.Flatten` | main.py:66-70 | the flattened chart list is empty exactly when every chart group is empty |
| `Charts.FirstMax` | main.py:73 | Python's max with a key: an index whose key is largest, with every earlier key strictly smaller |
| `Charts.Candidates` | main.py:74 | the candidates are exactly the charts whose difficulty field equals the chosen chart's (absent equals only absent) |
| `Charts.Representative` | main.py:65-77 | empty exactly for an empty list; otherwise a chart of the list with the highest tier (missing = -1) and the difficulty field of the first such chart, and the highest level (missing = 0) among charts with that field |
| `Charts.CandidatesPrefix` | main.py:74 | the filter keeps list order: each candidate sits at an index before which exactly the earlier candidates occur |
| `Charts.RepresentativeIsFirstBest` | main.py:73-77 | the shown chart is the first, in list order, among charts with its difficulty field whose level no earlier such chart reaches |
| `Charts.MissingTierIsNotMinusOne` | main.py:73-74 | a chart without a tier listed first is shown rather than a later tier -1 chart with a higher level |
| `Charts.PickHardest` | main.py:149-155 | the choosing half (empty check, first maximum tier, candidates, first maximum level when several) yields exactly the representative chart |
| `Charts.SelectSurface` | main.py:143-155 | select_surface returns the representative chart of the song's flattened charts, and returns nothing exactly when every difficulty group is empty |
| `Charts.Code` | main.py:162 | "standard" is coded SD and every other chart type DX |
| `Charts.NonEmptyGroups` | main.py:161-162 | the groups kept are exactly those with at least one chart, never more than there are groups |
| `Charts.Codes` | main.py:160-162 | one code per non-empty group, in mapping order: the i-th code is SD if the i-th non-empty group is "standard", else DX |
| `Charts.CodesListNonEmptyTypes` | main.py:160-162 | every chart type that has a chart contributes its code, and every code comes from such a type |
| `Charts.Join` | main.py:163 | '/'.join: the result starts with the first code and ends with the last, and joining non-empty codes gives the empty string only for no codes |
| `Charts.CodesEmpty` | main.py:160-162 | there are no chart-type codes exactly when every group is empty |
| `Charts.TypeSignature` | main.py:160-167 | the signature loop yields the codes of the non-empty groups, in mapping order, joined by "/" |
| `Charts.SignatureEmptyIffNoChart` | main.py:143-167 | the chart-type signature is empty exactly when the song has no representative chart, that is, when all groups are empty |
| `Marks.CmpMark` | main.py:118 | Equal exactly when the two values are equal, Mismatch otherwise |
| `Marks.Truncate` | main.py:121 | int() of a float truncates toward zero |
| `Marks.AsInt` | main.py:121 | int() of a catalog value: the integer itself, a float truncated toward zero, and an error (None) for an absent or text value |
| `Marks.Era` | main.py:122 | the era is a multiple of 100 with era <= v < era + 100 (floor division, also for negative versions) |
| `Marks.FallbackIsPythonEquality` | main.py:125-126 | on the fallback path (a value is not a number) the equality mark agrees with Python's == |
| `Marks.VerMark` | main.py:119-126 | on numbers: Equal iff the eras are equal, GoLater iff the guess era is earlier, GoEarlier iff it is later; otherwise Equal iff the raw values are equal, else Mismatch |
| `Marks.BpmMark` | main.py:127-133 | on numbers (floats truncated): Equal iff equal, GoLower iff the guess is greater, GoHigher iff smaller; otherwise equality with Mismatch |
| `Marks.LvlMark` | main.py:134-140 | on present levels: Equal iff equal, GoLower iff the guess is greater, GoHigher iff smaller; an absent level falls back to equality |
| `Marks.VerMarkDependsOnlyOnEra` | main.py:122-124 | two numeric guesses of the same era get the same version mark |
| `Marks.MarksAreAntisymmetric` | main.py:119-140 | swapping guess and target swaps GoLater/GoEarlier and GoLower/GoHigher and keeps Equal |
| `Marks.MarksAreReflexive` | main.py:118-140 | a value compared with itself is Equal on every mark, numeric or not |
| `Marks.VerTitle` | main.py:170-175 | a titled result exactly when the version is numeric and its era is in the table (and then the table's title, which may be absent); otherwise the raw value |
| `Marks.VerTitleDependsOnlyOnEra` | main.py:80-85 | numeric versions of the same era show the same title when the table has that era |
| `Marks.VerTitleOutsideTable` | main.py:83 | without the era in the table, 150 and 199 share an era yet show different titles |
| `Engine.Compare` | main.py:178-186 | title, artist and genre are marked Equal exactly when they agree; chart types and designer only ever Equal or Mismatch; a song guessed against itself is Equal on all eight fields |
| `Engine.CompareChartMarks` | main.py:180-185 | the chart-type mark is Equal exactly when the signatures agree, the designer mark exactly when the representative charts' designers agree |
| `Engine.CardOf` | main.py:178-186 | the guessed song's chart-type signature is empty exactly when it has no chart, and then no designer or level is shown |
| `Engine.TargetInfoOf` | main.py:86-96 | a target without charts shows no designer or level; a shown designer or level comes from one of its charts of the highest tier |
| `Engine.CorrectGuessAllEqual` | main.py:189-194 | in a catalog with distinct ids, a guess resolving to the target's id is the target itself and all its marks are Equal |
| `Engine.Settle` | main.py:188-199 | the right id wins with the tries unchanged; a wrong one costs one try, and the game goes on exactly while a try is left, else is lost showing the target's title |
| `Engine.GuessStep` | main.py:101-204 | a guess opens no game and leaves other groups' games alone; the guessing group's game is unchanged, or goes on with the same target and one try fewer but at least one, or is closed only by a won or lost verdict; a verdict comes exactly when a game runs and the text names a song |
| `Engine.Step` | main.py:28-204 | every command touches only its own group's entry and keeps each running game at 1 to 10 tries with a target from the catalog |
| `Engine.HelpChangesNothing` | main.py:32-39 | help answers with the usage text in every state and leaves the games unchanged |
| `Engine.StartOpensOneGame` | main.py:42-56 | start with a running game or an empty catalog changes nothing; otherwise it adds one game for the group, with a catalog song and 10 tries, and keeps every other game |
| `Engine.EndRemovesOneGame` | main.py:59-99 | end with no game changes nothing; with a game it reveals the target and removes exactly that group's entry |
| `Engine.UnresolvedGuessIsFree` | main.py:101-114 | a guess with no running game, or one naming no song, leaves the games (and so the tries) unchanged |
| `Engine.WrongGuessCostsOneTry` | main.py:188-199 | a resolved guess with another id costs exactly one try; the game continues with one try fewer while tries remain, and is removed with the answer shown when the last try is spent |
| `Engine.CorrectGuessEndsGame` | main.py:188-194 | a resolved guess with the target's id always removes the game as won, without spending a try |
| `Engine.Lines` | main.py:156-186 | the result lines are the marks of the guess against the target and the guessed song's shown values |
| `Engine.Maidle.constructor` | main.py:19-23 | a new engine holds the given songs and their version table, and no games |
| `Engine.Maidle.Command` | main.py:26-204 | the handler updates the games field and answers exactly as Step prescribes, and keeps every running game at 1 to 10 tries |
| `Engine.Maidle.Guess` | main.py:101-204 | the guess branch updates the games field and answers exactly as GuessStep prescribes |

## Left out

- The host framework: plugin registration, the command decorator, the event object, and the async reply plumbing. A command arrives as a group id and a text; the reply is a `Reply` value.
- Loading `maidle.json` from disk and its broad exception fallback. The engine takes the parsed songs and version list as given.
- `random.choice`: the model takes `pick`, the index the random source yields. It must be a valid index whenever the catalog is non-empty.
- Message wording, emoji and display formatting. A reply says which message is sent. Each mark is a `Mark` value.
- `str()` of a raw version: `VerTitle` returns `Raw(value)` instead of the rendered string.
- Parsing numeric text: `AsInt` treats a text value as not a number, where Python's `int("150")` would parse it. Levels are exact reals, so `float()` of text, NaN, infinities and rounding are not modelled.
- Charts are modelled with a difficulty that is an integer or absent, and a level that is a number or absent. Mixed types that would make Python's `max` raise are not modelled. Version-table keys are integers.
- Songs are modelled with an id and a title, so the source's `KeyError` on a missing one is not modelled. Neither is an empty song record, which the source treats as "not found".
- `d['type'] = t`: the source writes the chart type into the shared catalog chart in place. The model tags a copy (`TaggedChart`). Nothing in the core reads the written field.
- `game['tries'] -= 1` changes the game record that the games table shares. The model stores a new `Game` value under the group instead; no other reference to the record exists, so the table ends up the same.
- Concurrency between groups and commands: every command runs to completion before the next.
