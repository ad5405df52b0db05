# swuSearch core, modelled in Dafny

swuSearch is a desktop tool for Star Wars: Unlimited card scans. It reads the
text of card images and PDF pages, classifies the cards, stores them in a JSON
cache per scanned folder, and lets the user filter the cards with a small
boolean query language. This project models the core of that program and
proves what it promises:

- `search_filters.dfy` (module `SearchFilters`): the include/exclude query
  engine. It covers the character-level tokenizer with quoted phrases, the
  shunting-yard conversion to postfix with AND (precedence 2) above OR
  (precedence 1), and the stack evaluator where a missing operand is false. It
  also covers the searchable text of a card and `filter_cards`. The central
  theorem is `QueryHolds`: for every fully parenthesized query, the engine
  decides exactly what the query means.
- `card_classifier.dfy` (module `CardClassifier`): the heuristic classifier.
  It covers line cleaning, metadata lines, integer lines, trait splitting, the
  choice of name and subname, type detection by keyword priority, the five
  per-kind parsers and `classify_card`'s one-key result.
- `card_store.dfy` (module `CardStore`): the card cache of the desktop app.
  It covers `ALLOWED_FIELDS`, `_normalize_card` with its legacy unwrapping,
  `_extract_file_path` and `_collect_cards` with its `file_path` dedup and
  preferred folder. It also covers `save_folder_cards` on the cache as a value
  and the migration loop of `_load_cached_cards`.
- `pdf_search.dfy` (module `PdfSearch`): the snippet window of the PDF search
  window and the page loop of `perform_search`.
- `img_to_card.dfy` (module `ImgToCard`): the header type detector and the
  "Card" default for empty header text.
- `card_example.dfy` (module `ClassifierExample`): a sample unit card,
  read the way the code reads it.
- `json.dfy` (module `Json`): JSON values as the program sees them, with a
  Python dict as an insertion-ordered field list. It includes `d.get`,
  `d[k] = v` and `str()` of a value.
- `text.dfy` (module `Text`): the Python `str` operations the code uses.
  These are `strip`, `split()`, `splitlines()`, `lower`/`upper`/`isupper`,
  `find`, `in`, `" ".join`, `str(int)`, `re.split` on one character and
  `Path(p).name`.
- `wrappers.dfy` (module `Wrappers`): `Option` and `Result`.

The loops of the source are methods with loop invariants. Each method is
proved equal to a specification function: `Tokenize`, `ToPostfix`,
`EvalPostfix`, `FilterCards`, `ExtractInts`, `CollectTraits`, the `Parse*` methods,
`AdmitFolder`, `CollectCards`, `MigrateEntry`, `MigrateCache` and
`PerformSearch`. The lemmas then state the source's promises about those
functions.

Exceptions the source can raise are error values. In `save_folder_cards`,
`cache.setdefault("folders", {})` on a cache that is not a dict raises
AttributeError, and assigning the folder's entry into a `folders` that is not
a dict raises TypeError. The clock value of `save_folder_cards` is a
parameter. Reading and writing the cache file are not modelled: the cache is a
value.

Where the code does not do what a reader might expect, the model follows the code:

- An unmatched "(" is not closed implicitly. It reaches the postfix list
  and is then matched as the literal text "(" (`HoldsUnmatchedOpen`).
- Words written next to each other with no operator are not combined with
  AND. Only the last word decides (`HoldsJuxtaposed`).
- `_split_traits` has a whitespace fallback for upper-case lines, which the
  comment at card_classifier.py:43 says splits "FORCE PILOT" into tokens. It
  never applies. A line whose pieces are all blank holds only bullets and
  whitespace, so it is not upper-case. A bullet-free upper-case line such
  as "FORCE PILOT" is therefore one trait (`SplitTraitsPieces`,
  `SplitTraitsWithoutBullet`).
- A sample unit card, the lines `UNIT`, `• SOLDIER`, `3`, `4`, `2`,
  `Some effect text` and `HAN SOLO`, might be expected to give the traits
  `["SOLDIER"]` and the effect text "Some effect text". The code gives more.
  "HAN SOLO" is upper-case and no kind word, so it is also a trait. The line
  "• SOLDIER" yields the trait "SOLDIER" but is not itself one, so it stays
  in the effect text (`ExampleUnitRead`, from `UpperNameIsTrait` and
  `UnitKeepsBulletLine`).
- `_collect_cards` deduplicates by `str(file_path)` alone, not by any other
  key.
- The `try/except` around `_to_postfix` in `evaluate_expression` never
  fires, because the conversion cannot raise, so the error path is not
  modelled. The AND/OR mapping on the tokens, just before it, is the
  identity.

## Model

| member | source | states |
|---|---|---|
| SearchFilters.Tokenize | src/image_search_app/search_filters.py:9-45 | the character loop with its buffer and quote flag computes exactly the token list `Tokens(expr)` |
| SearchFilters.Tokens | src/image_search_app/search_filters.py:9-45 | defines `_tokenize` by a character run over a buffer and a quote flag, flushing stripped words at spaces and parentheses outside quotes |
| SearchFilters.TokensAreStripped | src/image_search_app/search_filters.py:43-45 | no token is empty and none has leading or trailing whitespace |
| SearchFilters.ParenthesesAreTokens | src/image_search_app/search_filters.py:28-41 | outside quotes every token is a bare word or a single parenthesis, and the parenthesis tokens are exactly the parentheses of the input, in order |
| SearchFilters.QuotedPhrase | src/image_search_app/search_filters.py:17-44 | a quoted phrase, spaces and parentheses included, is one stripped token, and so is the text after a quote that is never closed |
| SearchFilters.TokRunInQuote | src/image_search_app/search_filters.py:28-41 | inside quotes every character except a quote goes into the buffer |
| SearchFilters.TokensOfJoin | src/image_search_app/search_filters.py:9-45 | bare words and parentheses separated by single spaces tokenize back to the same list |
| SearchFilters.ToPostfix | src/image_search_app/search_filters.py:48-69 | the loop with its two inner popping loops and the final drain computes exactly `Postfix(tokens)` |
| SearchFilters.Postfix | src/image_search_app/search_filters.py:48-69 | defines `_to_postfix` as the shunting-yard run over the tokens followed by draining the operator stack |
| SearchFilters.PostfixNoClose | src/image_search_app/search_filters.py:60-68 | ")" never reaches the postfix list |
| SearchFilters.PostfixLiteralOrder | src/image_search_app/search_filters.py:53-68 | the conversion keeps every literal token in its input order and adds none |
| SearchFilters.PostfixOrAnd | src/image_search_app/search_filters.py:50-57 | `a OR b AND c` becomes `a b c AND OR` |
| SearchFilters.PostfixAndOr | src/image_search_app/search_filters.py:50-57 | `a AND b OR c` becomes `a b AND c OR` |
| SearchFilters.PostfixLeftAssociative | src/image_search_app/search_filters.py:55-57 | operators of equal precedence group to the left |
| SearchFilters.PostfixUnmatchedOpen | src/image_search_app/search_filters.py:58-68 | an unmatched "(" is moved to the end of the output |
| SearchFilters.PostfixUnmatchedClose | src/image_search_app/search_filters.py:60-64 | an unmatched ")" is dropped |
| SearchFilters.PostfixLiterals | src/image_search_app/search_filters.py:65-66 | a list of literals is its own postfix form |
| SearchFilters.PostRunInfix | src/image_search_app/search_filters.py:53-66 | converting the infix tokens of any query appends its reverse Polish form and leaves the operator stack as it was |
| SearchFilters.PostfixOfInfix | src/image_search_app/search_filters.py:48-69 | the conversion turns the infix tokens of a query into its reverse Polish form |
| SearchFilters.EvalPostfix | src/image_search_app/search_filters.py:76-91 | the stack loop computes exactly `PostfixValue(postfix, haystack)` |
| SearchFilters.MatchToken | src/image_search_app/search_filters.py:70-71 | defines a literal's match: the lowered token occurs in the haystack |
| SearchFilters.PostfixValue | src/image_search_app/search_filters.py:74-91 | defines `_eval_postfix`: true for an empty list, else the top of the stack after the run, false when the stack is empty |
| SearchFilters.ValueMissingOperand | src/image_search_app/search_filters.py:77-88 | an empty list holds, a missing operand of AND or OR reads as false, so `a AND` fails and `a OR` is `a` |
| SearchFilters.EvalRunRpn | src/image_search_app/search_filters.py:80-90 | evaluating the reverse Polish form of a query pushes exactly the query's meaning onto the stack |
| SearchFilters.ValueOfRpn | src/image_search_app/search_filters.py:76-91 | the evaluator returns the meaning of a query from its reverse Polish form |
| SearchFilters.ValueOrAnd | src/image_search_app/search_filters.py:80-91 | `a b c AND OR` evaluates to a or (b and c) |
| SearchFilters.ValueAndOr | src/image_search_app/search_filters.py:80-91 | `a b AND c OR` evaluates to (a and b) or c |
| SearchFilters.ValueLiterals | src/image_search_app/search_filters.py:89-91 | for a list of literals, the result is the match of the last one |
| SearchFilters.ValueUnmatchedOpen | src/image_search_app/search_filters.py:89-91 | a left-over "(" is evaluated as the literal text "(" |
| SearchFilters.EvaluateExpression | src/image_search_app/search_filters.py:94-106 | computes exactly `Holds(expr, haystack)` |
| SearchFilters.Holds | src/image_search_app/search_filters.py:94-106 | defines `evaluate_expression`: a blank expression holds, otherwise the postfix value of the stripped expression's tokens |
| SearchFilters.HoldsBlank | src/image_search_app/search_filters.py:96-98 | a blank expression accepts every text |
| SearchFilters.QueryHolds | src/image_search_app/search_filters.py:94-106 | for every fully parenthesized query, AND is conjunction, OR is disjunction and a word is a case-blind substring test |
| SearchFilters.HoldsOfTokens | src/image_search_app/search_filters.py:99-106 | tokens separated by single spaces are evaluated as they are |
| SearchFilters.HoldsByTokens | src/image_search_app/search_filters.py:96-106 | an unfolding of `Holds` for a stripped, non-blank expression: it is decided by the postfix form of its tokens |
| SearchFilters.HoldsOrAnd | src/image_search_app/search_filters.py:94-106 | `a OR b AND c` means a or (b and c) |
| SearchFilters.HoldsAndOr | src/image_search_app/search_filters.py:94-106 | `a AND b OR c` means (a and b) or c |
| SearchFilters.HoldsJuxtaposed | src/image_search_app/search_filters.py:94-106 | with no operator between words, and "and"/"or" in lower case being plain words, only the last word decides |
| SearchFilters.HoldsUnmatchedOpen | src/image_search_app/search_filters.py:94-106 | `( a` holds exactly when the text contains "(" |
| SearchFilters.HoldsUnmatchedClose | src/image_search_app/search_filters.py:94-106 | `a )` holds exactly when `a` matches |
| SearchFilters.QuotedExpr | src/image_search_app/search_filters.py:96-101 | a quoted phrase is left as it is by the strip and reads as one token |
| SearchFilters.HoldsQuoted | src/image_search_app/search_filters.py:94-106 | a quoted phrase matches as one literal after trimming the whitespace inside the quotes |
| SearchFilters.JoinContains | src/image_search_app/search_filters.py:117 | each part of a space-joined list occurs in the joined text |
| SearchFilters.CardTextHasScanned | src/image_search_app/search_filters.py:111-112 | a card's searchable text holds its lowered scanned text when that is a string |
| SearchFilters.CardTextHasFileName | src/image_search_app/search_filters.py:113-114 | a card's searchable text holds the lowered file name of its image path |
| SearchFilters.CardTextHasPdfName | src/image_search_app/search_filters.py:115-116 | a card's searchable text holds the lowered file name of its PDF path |
| SearchFilters.CardText | src/image_search_app/search_filters.py:109-117 | defines `_card_text`: the scanned text and the file names of the image and PDF paths that are strings, joined by spaces and lowered |
| SearchFilters.FilterCards | src/image_search_app/search_filters.py:120-133 | the loop computes exactly `Filtered(cards, includeExpr, excludeExpr)` |
| SearchFilters.Filtered | src/image_search_app/search_filters.py:120-133 | defines `filter_cards` as keeping the cards whose text the include expression accepts and a non-blank exclude expression rejects |
| SearchFilters.FilteredMembers | src/image_search_app/search_filters.py:126-132 | a card is kept exactly when it is among the input, passes the include query, and either the exclude query is blank or the card does not pass it |
| SearchFilters.FilteredBlank | src/image_search_app/search_filters.py:123-133 | blank include and exclude queries keep every card, in order |
| SearchFilters.FilteredAppend | src/image_search_app/search_filters.py:125-133 | filtering distributes over concatenation, so the order of the input is kept |
| SearchFilters.FilterByMembers | src/image_search_app/search_filters.py:126-132 | the loop keeps exactly the input cards that its test accepts |
| SearchFilters.FilterByAppend | src/image_search_app/search_filters.py:126-132 | the loop's result over a concatenation is the concatenation of the results |
| SearchFilters.FilterByAll | src/image_search_app/search_filters.py:126-132 | a test that accepts everything keeps the whole input |
| CardClassifier.NonBlank | src/image_search_app/scripts/card_classifier.py:14-15 | the kept lines are stripped and non-empty, and there are no more of them than inputs |
| CardClassifier.AsLines | src/image_search_app/scripts/card_classifier.py:10-15 | the lines of None, of a list or of any other value are stripped and non-empty |
| CardClassifier.NonBlankAppend | src/image_search_app/scripts/card_classifier.py:14-15 | dropping blank lines keeps the order of the lines |
| CardClassifier.NonBlankOfClean | src/image_search_app/scripts/card_classifier.py:14-15 | lines that are already clean come through unchanged |
| CardClassifier.NonBlankEmpty | src/image_search_app/scripts/card_classifier.py:14-15 | there are no lines exactly when every input line is blank |
| CardClassifier.AsLinesOfList | src/image_search_app/scripts/card_classifier.py:13-14 | a list of clean lines is read back as those lines |
| CardClassifier.AsLinesOfText | src/image_search_app/scripts/card_classifier.py:15 | clean lines written one per line are read back as those lines |
| CardClassifier.PageMarkOfDigits | src/image_search_app/scripts/card_classifier.py:25-26 | every line that starts with digits, a slash and a digit is metadata |
| CardClassifier.IsMeta | src/image_search_app/scripts/card_classifier.py:18-29 | defines `_is_meta`: empty, a copyright sign, ".psd" in any case, a `v`/`V` and digit prefix, a digits-slash-digit prefix, or EN / SYS / HMW |
| CardClassifier.IntValue | src/image_search_app/scripts/card_classifier.py:35-37 | defines the integer of a line: an optional sign (the Unicode minus read as "-") and ASCII digits, with one final newline allowed, else none |
| CardClassifier.ExtractInts | src/image_search_app/scripts/card_classifier.py:32-38 | the loop computes exactly `Ints(lines)` |
| CardClassifier.IntsAppend | src/image_search_app/scripts/card_classifier.py:32-38 | the integers of a concatenation are those of each part, in line order |
| CardClassifier.IntValueOfString | src/image_search_app/scripts/card_classifier.py:35-37 | every number that `str` writes is read back as that number |
| CardClassifier.IntValueOfDigits | src/image_search_app/scripts/card_classifier.py:35-37 | a run of digits reads as its value |
| CardClassifier.IntValueOfNegDigits | src/image_search_app/scripts/card_classifier.py:35-37 | a minus and a run of digits reads as the negated value |
| CardClassifier.IntValueOfUnicodeMinus | src/image_search_app/scripts/card_classifier.py:35 | the Unicode minus sign reads as a minus |
| CardClassifier.IntsOfNumbers | src/image_search_app/scripts/card_classifier.py:32-38 | numbers written one per line are extracted in order |
| CardClassifier.SplitTraits | src/image_search_app/scripts/card_classifier.py:41-46 | defines `_split_traits`: the stripped non-blank pieces between bullets, with the whitespace fallback for an upper-case line whose pieces are all blank |
| CardClassifier.SplitTraitsPieces | src/image_search_app/scripts/card_classifier.py:41-46 | the whitespace fallback never applies: the traits are the non-blank bullet-separated pieces |
| CardClassifier.SplitTraitsClean | src/image_search_app/scripts/card_classifier.py:42 | every trait is non-empty, stripped and free of bullets |
| CardClassifier.SplitTraitsOfJoin | src/image_search_app/scripts/card_classifier.py:42 | clean traits joined by bullets split back into the same traits |
| CardClassifier.SplitTraitsWithoutBullet | src/image_search_app/scripts/card_classifier.py:42-46 | a line without a bullet is one whole trait, even with several words |
| CardClassifier.CollectTraits | src/image_search_app/scripts/card_classifier.py:81-84 | the trait loop computes exactly `RawTraits(lines)` |
| CardClassifier.RawTraitsClean | src/image_search_app/scripts/card_classifier.py:81-84 | every gathered trait is non-empty, stripped and free of bullets |
| CardClassifier.RawTraitsHas | src/image_search_app/scripts/card_classifier.py:82-84 | every trait of a line that has a bullet or is upper-case is gathered |
| CardClassifier.CollectBaseTraits | src/image_search_app/scripts/card_classifier.py:172-175 | the loop of `_parse_base` computes exactly `BaseRawTraits(lines)` |
| CardClassifier.DropKinds | src/image_search_app/scripts/card_classifier.py:85 | keeps exactly the non-empty traits whose upper-case form is not a kind word |
| CardClassifier.PickNameAndSub | src/image_search_app/scripts/card_classifier.py:49-55 | defines `_pick_name_and_sub` on the lines that are neither metadata nor integers: the last one, and the one before it when upper-case |
| CardClassifier.LastCandidate | src/image_search_app/scripts/card_classifier.py:50-53 | the index of the last line that is neither metadata nor an integer, or -1 |
| CardClassifier.PreviousCandidate | src/image_search_app/scripts/card_classifier.py:50-54 | the index of the candidate just before the last one, or -1 |
| CardClassifier.NameAndSub | src/image_search_app/scripts/card_classifier.py:49-55 | the name is the last candidate line or ""; the subname is the candidate before it when that one is upper-case, else "" |
| CardClassifier.NameEmpty | src/image_search_app/scripts/card_classifier.py:50-52 | the name is "" exactly when no line is a candidate |
| CardClassifier.NameNotZero | src/image_search_app/scripts/card_classifier.py:49-55 | neither the name nor the subname is the integer line "0" |
| CardClassifier.TypeOfLines | src/image_search_app/scripts/card_classifier.py:58-71 | the type is one of the five kinds or the card's own type / "Card" |
| CardClassifier.TypeIgnoresCase | src/image_search_app/scripts/card_classifier.py:59-70 | upper-casing every line changes no decision |
| CardClassifier.TypeOfLinesPriority | src/image_search_app/scripts/card_classifier.py:58-71 | the first keyword found in the order leader unit / leader, upgrade / fortification, event, base, unit decides the type, else the card's own type or "Card"; when that own type is none of the five kinds, each kind is returned exactly when its keyword is found and no earlier one is |
| CardClassifier.EventBeatsUnit | src/image_search_app/scripts/card_classifier.py:65-70 | with no leader, upgrade or fortification line, a line naming an event makes an Event even when another line names a unit |
| CardClassifier.DetectType | src/image_search_app/scripts/card_classifier.py:58-71 | defines `detect_type` as the keyword priority on the card's clean lines |
| CardClassifier.Arena | src/image_search_app/scripts/card_classifier.py:75 | the first line reading GROUND or SPACE in upper case, or "" when there is none |
| CardClassifier.ArenaFirst | src/image_search_app/scripts/card_classifier.py:75 | the arena is the first such line, not a later one |
| CardClassifier.KeepLines | src/image_search_app/scripts/card_classifier.py:90-98 | the comprehension keeps exactly the lines its test accepts |
| CardClassifier.UnitTraits | src/image_search_app/scripts/card_classifier.py:85 | a unit's traits are gathered traits and never read UNIT, GROUND or SPACE in upper case |
| CardClassifier.UnitEffect | src/image_search_app/scripts/card_classifier.py:90-98 | every effect line is a card line that is not metadata, not a trait and not the name |
| CardClassifier.ParseUnit | src/image_search_app/scripts/card_classifier.py:74-110 | the method builds exactly `UnitRecord(lines)` |
| CardClassifier.UnitSlots | src/image_search_app/scripts/card_classifier.py:76-79 | cost, health and power are the first three integers in line order, each None when missing |
| CardClassifier.UpperNameIsTrait | src/image_search_app/scripts/card_classifier.py:82-87 | a bullet-free upper-case name is also one of the unit's traits |
| CardClassifier.UnitTraitsKeep | src/image_search_app/scripts/card_classifier.py:85 | every gathered trait that is not a kind word is kept |
| CardClassifier.UnitEffectKeeps | src/image_search_app/scripts/card_classifier.py:90-98 | a line passing every test of the unit filter is kept |
| CardClassifier.UnitTraitsNoBullet | src/image_search_app/scripts/card_classifier.py:81-85 | no unit trait holds a bullet |
| CardClassifier.UnitKeepsBulletLine | src/image_search_app/scripts/card_classifier.py:90-98 | a bulleted line that is not the name or subname stays in the unit's effect text |
| CardClassifier.BulletLineNotNumber | src/image_search_app/scripts/card_classifier.py:89-97 | a bulleted line is neither a kind word nor a printed number |
| CardClassifier.UnitKeepsZero | src/image_search_app/scripts/card_classifier.py:97 | because of `str(x or "")`, a line "0" stays in a unit's effect text |
| ClassifierExample.ExampleUnitRead | src/image_search_app/scripts/card_classifier.py:74-98 | for the seven sample unit lines the name is "HAN SOLO" with no subname, the traits include both "SOLDIER" and "HAN SOLO", and "• SOLDIER" stays in the effect lines |
| ClassifierExample.SplitTraitsOfBulleted | src/image_search_app/scripts/card_classifier.py:41-46 | a bullet followed by one clean piece gives that piece as the only trait |
| CardClassifier.KindTraits | src/image_search_app/scripts/card_classifier.py:116-120 | the traits of an upgrade, an event or a leader are exactly the non-empty gathered traits that are not the kind's own words (UPGRADE; EVENT at lines 145-149; LEADER and LEADER UNIT at lines 197-201) |
| CardClassifier.UpgradeEffect | src/image_search_app/scripts/card_classifier.py:123-131 | every effect line is a card line that is not metadata, not an integer, not a trait, not the name and not UPGRADE |
| CardClassifier.ParseUpgrade | src/image_search_app/scripts/card_classifier.py:113-139 | the method builds exactly `UpgradeRecord(lines)` |
| CardClassifier.UpgradeSlot | src/image_search_app/scripts/card_classifier.py:114-115 | the cost is the first integer, None when there is none |
| CardClassifier.EventEffect | src/image_search_app/scripts/card_classifier.py:151-159 | every effect line is a card line that is not metadata, not an integer, not a trait, not the name and not EVENT |
| CardClassifier.ParseEvent | src/image_search_app/scripts/card_classifier.py:142-166 | the method builds exactly `EventRecord(lines)` |
| CardClassifier.EventSlot | src/image_search_app/scripts/card_classifier.py:143-144 | the cost is the first integer, None when there is none |
| CardClassifier.BaseEffect | src/image_search_app/scripts/card_classifier.py:177-181 | every effect line is a card line that is not metadata, not an integer, not a trait, not the name and not BASE |
| CardClassifier.ParseBase | src/image_search_app/scripts/card_classifier.py:169-188 | the method builds exactly `BaseRecord(lines)` |
| CardClassifier.BaseSlot | src/image_search_app/scripts/card_classifier.py:170-171 | the health is the first integer, None when there is none |
| CardClassifier.LeaderEffect | src/image_search_app/scripts/card_classifier.py:204-212 | every effect line is a card line that is not metadata, not an integer, not a trait, not the name and not LEADER / LEADER UNIT |
| CardClassifier.ParseLeader | src/image_search_app/scripts/card_classifier.py:191-223 | the method builds exactly `LeaderRecord(lines)` |
| CardClassifier.LeaderSlots | src/image_search_app/scripts/card_classifier.py:192-195 | cost, health and power are the first three integers, each None when missing |
| CardClassifier.KindKey | src/image_search_app/scripts/card_classifier.py:241-259 | the outer key is the lowered type for the five kinds and "card" for anything else |
| CardClassifier.ClassifyCard | src/image_search_app/scripts/card_classifier.py:226-259 | the method computes exactly `Classify(card)` |
| CardClassifier.Classify | src/image_search_app/scripts/card_classifier.py:226-259 | defines `classify_card`: a one-key dict named after the lowered type, holding the base fields followed by that kind's parsed fields |
| CardClassifier.DetailsKeys | src/image_search_app/scripts/card_classifier.py:241-258 | each kind's parsed fields have that kind's keys, in order |
| CardClassifier.InnerKeysDistinct | src/image_search_app/scripts/card_classifier.py:234-258 | the keys of every inner dict are distinct |
| CardClassifier.BaseFieldsGet | src/image_search_app/scripts/card_classifier.py:234-239 | the base fields are found before anything appended after them |
| CardClassifier.InnerDistinct | src/image_search_app/scripts/card_classifier.py:234-258 | the parsed fields never overwrite a base field |
| CardClassifier.ClassifyShape | src/image_search_app/scripts/card_classifier.py:226-259 | a one-key dict named after the detected type; the inner dict has distinct keys and records the type and the file fields; the fallback keeps the lines as `text` |
| CardClassifier.FallbackDetails | src/image_search_app/scripts/card_classifier.py:257-258 | any other type stores the lines as `text` |
| CardStore.AppCache | src/swu_search_app/main.py:20-27 | with the app's own fields, the merged list never repeats a file path and a migrated cache is not rewritten |
| CardStore.Project | src/swu_search_app/main.py:634 | every field of the projection is an allowed key with the card's value, and every allowed key the card has is present |
| CardStore.Normalize | src/swu_search_app/main.py:625-634 | every key of a normalised card is allowed |
| CardStore.ProjectGet | src/swu_search_app/main.py:634 | an allowed key reads as in the source dict |
| CardStore.ProjectAgree | src/swu_search_app/main.py:634 | dicts that agree on the allowed keys project to the same dict |
| CardStore.ProjectOfEmpty | src/swu_search_app/main.py:634 | the empty dict projects to the empty dict |
| CardStore.ProjectTwice | src/swu_search_app/main.py:634 | projecting twice is projecting once |
| CardStore.ProjectDistinct | src/swu_search_app/main.py:634 | with distinct allowed names the projection has distinct keys |
| CardStore.NormalizeGet | src/swu_search_app/main.py:625-634 | anything but a dict gives `{}`; an allowed key reads as in the unwrapped card and any other key is absent; a legacy wrapper reads through to its inner dict |
| CardStore.NormalizeTwice | src/swu_search_app/main.py:625-634 | normalising is idempotent |
| CardStore.NormalizeDistinct | src/swu_search_app/main.py:625-634 | a normalised card has distinct keys |
| CardStore.SameCardIff | src/swu_search_app/main.py:351-353 | a card equals its normalised form exactly when it is a dict whose every key is allowed |
| CardStore.NormalizedIsSame | src/swu_search_app/main.py:351-353 | a normalised card equals its own normalised form |
| CardStore.ExtractOfFlat | src/swu_search_app/main.py:457-460 | a dict naming its file gives `str` of that file |
| CardStore.ExtractOfWrapped | src/swu_search_app/main.py:461-464 | a one-key wrapper gives the file of its inner dict |
| CardStore.ExtractOfClassified | src/swu_search_app/main.py:457-465 | the file of a classified card is found in its wrapped layout |
| CardStore.ExtractOfNormalized | src/swu_search_app/main.py:457-465 | normalising keeps the file a card names, flat or wrapped |
| CardStore.ExtractFilePath | src/swu_search_app/main.py:457-465 | defines `_extract_file_path`: `str` of a dict's file_path, else that of the one value of a one-key dict when it is a dict, else "" |
| CardStore.Without | src/swu_search_app/main.py:603 | the folders other than the preferred one, and only those |
| CardStore.MergeStep | src/swu_search_app/main.py:607-620 | one more folder is admitted after those before it |
| CardStore.AdmitAllStep | src/swu_search_app/main.py:613-620 | one more card is admitted after those before it |
| CardStore.AdmitFolder | src/swu_search_app/main.py:608-620 | the inner loop computes exactly `AdmitAll(byFile, Stored(data), allowed)` |
| CardStore.CollectCards | src/swu_search_app/main.py:592-622 | the nested loops compute exactly `Collected(cache, preferred, allowed)` |
| CardStore.Collected | src/swu_search_app/main.py:592-622 | defines `_collect_cards`: the folders in order with the preferred one last, each normalised card filed under its file path, the last card per path kept at its first position |
| CardStore.LastFiled | src/swu_search_app/main.py:613-620 | the last card filed under a path, or None when no card is |
| CardStore.AdmitAllGet | src/swu_search_app/main.py:613-620 | after a folder's cards, a path holds the last card filed under it there, or what it held before |
| CardStore.MergeStepGet | src/swu_search_app/main.py:607-620 | after one more folder, a path holds that folder's last card for it, or what it held before |
| CardStore.LaterFolderWins | src/swu_search_app/main.py:607-620 | a path holds the card of the last folder that files one under it |
| CardStore.UnfiledAbsent | src/swu_search_app/main.py:613-618 | a path that no folder files a card under is absent |
| CardStore.PreferredWins | src/swu_search_app/main.py:600-605 | the preferred folder is visited last, so it wins every tie |
| CardStore.KeptFiled | src/swu_search_app/main.py:616-619 | a card stays filed under the same path once normalised |
| CardStore.AdmitAllFiling | src/swu_search_app/main.py:613-620 | each stored card is filed under its own non-empty path |
| CardStore.MergeFiling | src/swu_search_app/main.py:606-620 | the same holds after every folder |
| CardStore.FilingValues | src/swu_search_app/main.py:622 | the values of such a dict are cards with distinct paths |
| CardStore.CollectedDistinct | src/swu_search_app/main.py:606-622 | the merged list never holds two cards with the same path, and each has a non-empty path |
| CardStore.CollectedPrefers | src/swu_search_app/main.py:600-622 | the preferred folder's card for a path is the one the list holds |
| CardStore.SaveFolderCards | src/swu_search_app/main.py:637-647 | succeeds exactly when the cache is a dict whose `folders`, after `setdefault`, is a dict |
| CardStore.SavedFolders | src/swu_search_app/main.py:640-646 | only the entry for the folder is replaced; every other folder and cache key reads as before |
| CardStore.EntryCards | src/swu_search_app/main.py:641-646 | the new entry holds the given cards |
| CardStore.EntryCount | src/swu_search_app/main.py:644 | the new entry counts the given cards |
| CardStore.SaveThenCollect | src/swu_search_app/main.py:637-647 | after a save, merging with that folder preferred shows its last card for every path it files |
| CardStore.MigrateFolders | src/swu_search_app/main.py:348-355 | succeeds when every folder does, keeps each folder in place with its migrated entry, and reports a change exactly when some folder changed |
| CardStore.MigrateFoldersStep | src/swu_search_app/main.py:348-355 | the loop over one more folder continues from the folders before it |
| CardStore.MigrateEntry | src/swu_search_app/main.py:349-355 | the loop body computes exactly `MigrateFolder(data, allowed)` |
| CardStore.MigrateFolder | src/swu_search_app/main.py:349-355 | defines one folder's migration: a non-dict entry is skipped, otherwise its cards are normalised and written back only when they differ, and a TypeError when `cards` cannot be iterated |
| CardStore.MigrateCache | src/swu_search_app/main.py:345-357 | the loop computes exactly `Migrate(cache, allowed)` |
| CardStore.Migrate | src/swu_search_app/main.py:345-357 | defines the migration of the whole cache: nothing unless the cache and its folders are dicts, otherwise every folder migrated in place, with a flag saying whether any changed and a TypeError when some folder's cards cannot be iterated |
| CardStore.FolderChangesIff | src/swu_search_app/main.py:351-355 | a folder's cards are rewritten exactly when they are not already slim |
| CardStore.MigratedSettled | src/swu_search_app/main.py:352-354 | after one pass a folder is settled |
| CardStore.SettledStays | src/swu_search_app/main.py:351-353 | a settled folder passes unchanged |
| CardStore.MigrateTwice | src/swu_search_app/main.py:345-357 | migrating a migrated cache changes nothing and does not save it |
| CardStore.MigrateSavesIff | src/swu_search_app/main.py:346-357 | the cache is saved exactly when some dict folder holds cards that are not slim |
| PdfSearch.Window | pdf_search_app.py:161-162 | `0 <= start <= idx`, `end <= len(text)`, the window holds up to 80 characters before the match and after it |
| PdfSearch.BuildSnippet | pdf_search_app.py:156-164 | the fixed text "Match located on this page." exactly when the lowered query is not in the lowered text |
| PdfSearch.SnippedBody | pdf_search_app.py:163-164 | a snippet is "..." + single-spaced body + "...", and the body has the same words as the window |
| PdfSearch.SnippetOfMatch | pdf_search_app.py:157-164 | a found match is snipped from the window around its first occurrence |
| PdfSearch.SnippetCoversMatch | pdf_search_app.py:158-162 | the window covers the whole first occurrence plus up to 80 characters on each side |
| PdfSearch.Flags | pdf_search_app.py:141-142 | a page is a hit exactly when its lowered text holds the lowered query |
| PdfSearch.Hits | pdf_search_app.py:141-144 | the numbers, from 1 and ascending, of exactly the pages that are hits |
| PdfSearch.PageLineAt | pdf_search_app.py:141-144 | page k+1 is reported as "Page k+1: " and its snippet |
| PdfSearch.SelectedLength | pdf_search_app.py:140-144 | there is one match per hit |
| PdfSearch.SelectedAt | pdf_search_app.py:140-144 | the j-th match belongs to the j-th page that is a hit |
| PdfSearch.ReportLine | pdf_search_app.py:139-144 | the j-th report line gives the number of the j-th page that is a hit, with that page's snippet |
| PdfSearch.PerformSearch | pdf_search_app.py:129-153 | the page loop computes exactly `Search(input, pages)` |
| PdfSearch.Search | pdf_search_app.py:129-153 | defines `perform_search`: a prompt for a blank query, a prompt for a missing PDF, else the report of the matching pages |
| PdfSearch.BlankQuery | pdf_search_app.py:130-133 | a blank query asks for a term and leaves the results alone |
| PdfSearch.NoPages | pdf_search_app.py:135-137 | with no pages it asks for a PDF and leaves the results alone |
| PdfSearch.PageReported | pdf_search_app.py:139-144 | a page number is reported exactly when that page is a hit |
| PdfSearch.SearchReports | pdf_search_app.py:139-153 | the report is joined by blank lines and the count is the number of hits; "No matches found." exactly when there is none |
| ImgToCard.DetectType | src/image_search_app/scripts/img_to_card.py:37-47 | the result is one of Event, Unit, Upgrade, Leader, Card |
| ImgToCard.DetectTypePriority | src/image_search_app/scripts/img_to_card.py:38-47 | each kind is chosen exactly when its keyword occurs and no earlier keyword does; "Card" when none occurs |
| ImgToCard.DetectTypeIgnoresCase | src/image_search_app/scripts/img_to_card.py:38 | upper- or lower-casing the header changes nothing |
| ImgToCard.HeaderType | src/image_search_app/scripts/img_to_card.py:91 | the result is one of the five kinds |
| ImgToCard.BlankHeader | src/image_search_app/scripts/img_to_card.py:91 | a header that OCR leaves blank gives "Card" |
| ImgToCard.HeaderTypeIsDetectType | src/image_search_app/scripts/img_to_card.py:91 | the empty-text guard agrees with the detector |
| ImgToCard.ClassFor | src/image_search_app/scripts/img_to_card.py:96-102 | the plain Card class exactly for a type other than the four mapped ones |
| Json.Get | src/swu_search_app/main.py:610 | `d.get(k)` finds a value exactly when the key is present, and it is a field of the dict |
| Json.Put | src/swu_search_app/main.py:620 | `d[k] = v` keeps the length for a present key and appends a new key at the end |
| Json.PutGet | src/swu_search_app/main.py:620 | after `d[k] = v`, `k` reads as `v` and every other key as before |
| Json.PutInPlace | src/swu_search_app/main.py:620 | `d[k] = v` keeps every key in its position and the value of every other key |
| Json.PutDistinct | src/swu_search_app/main.py:620 | `d[k] = v` keeps the keys distinct |
| Json.PutSame | src/swu_search_app/main.py:354 | writing back the value a key already has changes nothing |
| Text.StripEmpty | src/image_search_app/search_filters.py:96-97 | `strip` gives "" exactly when every character is whitespace |
| Text.Words | pdf_search_app.py:163 | `split()` gives non-empty words without whitespace |
| Text.WordsOfJoin | pdf_search_app.py:163 | words joined by single spaces split back into the same words |
| Text.JoinWordsSingleSpaced | pdf_search_app.py:163 | words joined by single spaces have no leading, trailing or doubled whitespace |
| Text.Find | pdf_search_app.py:158 | the first index of an occurrence, or -1 exactly when there is none |
| Text.SplitLinesOfJoin | src/image_search_app/scripts/card_classifier.py:15 | lines joined by "\n" split back into the same lines |
| Text.SplitOnJoin | src/image_search_app/scripts/card_classifier.py:42 | pieces joined by a bullet split back into the same pieces |
| Text.BaseNameOfJoin | src/image_search_app/search_filters.py:114 | the name of a file in a directory is the name it was given |

## Left out

- User interface: Qt windows, trees, previews, dialogs, export copying and the
  feedback of `_load_pdf` are not modelled.
- Cache file I/O (`_load_cache`, `_save_cache`, `clear_cache`): the cache is a
  value given to and returned by the model. "Saved" is the `changed` flag that
  `MigrateCache` returns.
- The clock: the `last_scanned` timestamp is the parameter `now`.
- OCR, image preprocessing, the 6% header crop and PDF text extraction are
  foreign libraries or floating point. `ImgToCard` starts from the OCR text,
  whose `" ".join(text.split())` is modelled (`HeaderText`).
- The scan workers: they are threads and signals.
- The `Card`, `Unit`, `Upgrade`, `Event`, `Leader` dataclasses: they are not
  part of this model. The classifier's `Card` holds just the fields it reads,
  and `modified_ts` is an opaque JSON value.
- The copy of `save_folder_cards` in src/image_search_app/main.py duplicates
  the modelled one, and the `_detect_type` copy in pdf_to_card.py is identical
  to the modelled one. Neither is modelled twice.
- Case mapping is ASCII only. `lower`, `upper` and `isupper` ignore non-ASCII
  letters, and `\d` in the integer pattern is ASCII digits only.
- CardClassifier.IsMeta: the version prefix `^[vV]\d+` and the page prefix
  `^\d+/\d+` accept ASCII digits only, while Python's `\d` accepts every
  Unicode decimal digit. A line such as "v٣" or "٣/٤" is metadata in the
  source but not in the model, so there it can become a name or effect line.
- Python's `set` iteration order is left open. `ALLOWED_FIELDS` and `allowed`
  are sequences, and a normalised card lists its keys in that order; the
  empty sequence stands for a missing `allowed`.
- Card equality in the migration (`raw_cards != normalized_cards`) is compared
  one level deep on keys and values (`SameCard`), not with Python's nested
  equality of floats and containers. `SameCardIff` proves it agrees with "a
  dict whose keys are all allowed".
- Json.Repr: strings are always quoted with `'` and nothing is escaped. Python
  switches to `"` for a string that holds `'` and no `"`, and escapes
  backslashes and control characters. This reaches `str(card.get("file_path"))`
  (`FileKey`, `ExtractFilePath`) and `str(text)` (`AsLines`) only when the
  value is a container that holds such a string.
- Text.SplitLines: it counts "\r\n" as two breaks and gives a final empty line
  after a trailing break, unlike `str.splitlines`. Both differences give only
  blank lines, and every caller drops those.
- Text.BaseName: only POSIX paths are modelled; Windows drive and backslash
  rules are not.
- SearchFilters.QueryHolds: it covers fully parenthesized queries. Unbracketed
  precedence is covered by `HoldsOrAnd`, `HoldsAndOr` and
  `PostfixLeftAssociative`, and malformed input by the `Holds*` lemmas for
  unmatched parentheses, juxtaposed words and missing operands.
