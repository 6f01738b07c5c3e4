# DeepPavlov core, modelled in Dafny

This project models the deterministic core of an early version of
DeepPavlov, a framework for building dialogue systems out of components
wired together by JSON configurations. It covers:

- **SimpleVocabulary** (`simple_vocab.dfy`). This is the token/index
  vocabulary.
  - `fit` counts the corpus and keeps the special tokens, then the most
    common tokens, capped by `max_tokens` and filtered by `min_freq`.
  - `save`/`load` write and read one `token\tcount` line per entry.
  - Indexing maps ints to tokens and strings to indices. An unknown string
    resolves to the unknown-token index and is inserted into the
    defaulting `_t2i` dictionary.
  - `__call__` looks up nested batches.
- **DefaultTracker** (`default_tracker.dfy`). It keeps a history of
  `(slot, value)` pairs for the known slot names. Its state is the last
  value of each slot. Its features are 0/1 flags per slot name.
- **DstcSlotFillingNetwork** (`slotfill.dfy`).
  - `_chunk_finder` turns BIO tags into entities and slot names.
  - `predict_slots` and `__call__` fill slot dictionaries. The tagger and
    the value normaliser are parameters.
  - `save_params`/`load_params` check a saved model's graph parameters
    and vocabularies against the current ones.
- **GoalOrientedBot** (`go_bot.dfy`). This is the dialogue policy around a
  network.
  - The action mask comes from the `#placeholders` of the templates.
  - Responses are decoded from the tracker state and the database result.
  - The model covers single-utterance and dialog inference, teacher
    forcing, and `train_on_batch`'s targets and masks. The network's
    choice of action is a parameter.
- **build_model_from_config / interact_model** (`infer.dfy`). The first
  renews `load_path` from `save_path` and assembles the chainer pipe, or
  builds a legacy single model with its vocabularies. The second runs the
  console loop over a list of input lines.
- **Smaller components**:
  - the bag-of-words encoder (`bow.dfy`)
  - the graph-to-text triplet preprocessor (`triplets_preprocessor.dfy`)
  - the SQuAD iterator's context/question/answer extraction
    (`squad_iterator.dfy`)
  - the classification dataset's merge and split of fields
    (`classification_dataset.dfy`)
  - the REST server's request validation and server-parameter defaults
    (`server.dfy`)

Support modules:

- `wrappers.dfy`: `Option`, `Result`, `Outcome`
- `assoc.dfy`: `LastWins`, a dictionary built by successive assignments
- `json.dfy`: JSON values with Python truthiness and equality
- `text.dfy`: split, join, strip, and integer printing and parsing

Python exceptions become `Failure`/`Fail` values that name the exception.
Objects whose fields the source updates (the vocabulary, the tracker, the
bot, the dataset, the iterator) are classes with `modifies` clauses. The
loops of the source are methods proved against specification functions.

## Model

| member | source | states |
|---|---|---|
| Assoc.LastWinsMeaning | deeppavlov/models/trackers/default_tracker.py:53-57 | A key is in the dictionary built by successive writes iff some pair writes it, and its value is the one of the last pair that writes it |
| Assoc.LastWinsAt | deeppavlov/models/trackers/default_tracker.py:55-56 | A pair not followed by another write to its key gives that key its value |
| SimpleVocab.DropEmpty | deeppavlov/core/data/simple_vocab.py:58 | `filter(None, …)` keeps exactly the non-empty tokens |
| SimpleVocab.SortByFreqProperties | deeppavlov/core/data/simple_vocab.py:63 | `most_common()` is a permutation of the counts, sorted by non-increasing frequency, without repeated tokens |
| SimpleVocab.FrequentMembers | deeppavlov/core/data/simple_vocab.py:63-64 | The `freq >= min_freq` filter keeps exactly the pairs whose frequency reaches `min_freq` |
| SimpleVocab.FrequentSorted | deeppavlov/core/data/simple_vocab.py:63-64 | The filter keeps the frequency order |
| SimpleVocab.FrequentDistinct | deeppavlov/core/data/simple_vocab.py:63-64 | The filter keeps the tokens distinct |
| SimpleVocab.MostCommonEntries | deeppavlov/core/data/simple_vocab.py:58-63 | `most_common()` holds every corpus token once, with its count |
| SimpleVocab.TopOfMostCommon | deeppavlov/core/data/simple_vocab.py:63 | The first `max_tokens` entries are sorted and distinct corpus tokens with their counts |
| SimpleVocab.FitSelectionEntries | deeppavlov/core/data/simple_vocab.py:56-67 | `fit` adds at most `max_tokens` non-special entries; each is a non-empty corpus token whose count reaches `min_freq` |
| SimpleVocab.FitSelectionOrder | deeppavlov/core/data/simple_vocab.py:63-67 | The entries `fit` adds after the special tokens come in non-increasing frequency, each token once |
| SimpleVocab.FitSelectionComplete | deeppavlov/core/data/simple_vocab.py:63-67 | With `max_tokens` at least the number of distinct tokens, every token with count ≥ `min_freq` is added |
| SimpleVocab.LastIndex | deeppavlov/core/data/simple_vocab.py:60-66 | The index `_t2i` keeps for a token is its last position in `_i2t` |
| SimpleVocab.IndexRoundTrip | deeppavlov/core/data/simple_vocab.py:127-133 | For a token in the vocabulary, `_i2t[_t2i[t]] == t`, and no later position holds it |
| SimpleVocab.LookupKey | deeppavlov/core/data/simple_vocab.py:127-133 | An int key gives the token at that position (negative from the end) or an IndexError; a string gives an index whose token it is, or the unknown index when absent; any other key raises NotImplementedError |
| SimpleVocab.LookupPreservesShape | deeppavlov/core/data/simple_vocab.py:78-86 | A successful lookup of a nested batch has the batch's nesting, with one result per element |
| SimpleVocab.LookupAllPreservesShape | deeppavlov/core/data/simple_vocab.py:79-80 | A successful lookup of a list of batches has one result of the same shape per batch |
| SimpleVocab.CallStepIsLookup | deeppavlov/core/data/simple_vocab.py:78-86 | The stateful lookup, which inserts unknown strings into `_t2i`, returns the pure lookup's result and keeps the index consistent |
| SimpleVocab.CallAllStepIsLookupAll | deeppavlov/core/data/simple_vocab.py:79-80 | The same for a list of batches |
| SimpleVocab.CallAllStepFailureSticks | deeppavlov/core/data/simple_vocab.py:79-80 | An exception raised by one element ends the list comprehension: later elements change nothing |
| SimpleVocab.ParseLinesSuccess | deeppavlov/core/data/simple_vocab.py:102-105 | Loading lines succeeds iff every line has a tab and an integer count after it |
| SimpleVocab.ParseLinesValues | deeppavlov/core/data/simple_vocab.py:102-105 | A successful load reads one (token, count) pair per line, in order |
| SimpleVocab.ParseLinesFailure | deeppavlov/core/data/simple_vocab.py:102-105 | A failed load reports the first malformed line |
| SimpleVocab.ReadLines | deeppavlov/core/data/simple_vocab.py:101-105 | The reading loop of `load` returns the tokens and counts of all lines, zipped as the read pairs, or the index of the first line that raises |
| SimpleVocab.KeptOnLoadMeaning | deeppavlov/core/data/simple_vocab.py:72-76 | Loading keeps a token if and only if its count reaches `min_freq` or it is a special token |
| SimpleVocab.KeptOnLoadAll | deeppavlov/core/data/simple_vocab.py:72-76 | When every saved token qualifies, loading keeps all of them in their saved order |
| SimpleVocab.ParseSaveLine | deeppavlov/core/data/simple_vocab.py:94-105 | A saved line of a token without a tab reads back as that token and count |
| SimpleVocab.SavedLinesParse | deeppavlov/core/data/simple_vocab.py:88-105 | When no token holds a tab, newline or carriage return, the saved file is read back as exactly the saved lines, and they all load, giving back each entry and its count |
| SimpleVocab.NewlineTokenSplits | deeppavlov/core/data/simple_vocab.py:88-105 | A token holding a newline is read back as two lines, the second carrying its count, so the saved lines are not recovered |
| SimpleVocab.SaveLoadRoundTrip | deeppavlov/core/data/simple_vocab.py:88-106 | Reading back the text `save` wrote restores `_i2t` when every entry is free of tabs and line breaks and is special or frequent enough |
| SimpleVocab.FitThenSaveLoad | deeppavlov/core/data/simple_vocab.py:53-106 | After `fit` on tokens and special tokens free of tabs and line breaks, `save` then `load` restores the same `_i2t` |
| SimpleVocab.UnkIndexOf | deeppavlov/core/data/simple_vocab.py:148-151 | The default index is the position of `unk_token` among the special tokens, otherwise 0 |
| SimpleVocab.SimpleVocabulary.constructor | deeppavlov/core/data/simple_vocab.py:33-49 | The options are stored and the vocabulary starts empty |
| SimpleVocab.SimpleVocabulary.New | deeppavlov/core/data/simple_vocab.py:33-51 | A default token that is not special raises ValueError. Otherwise: no load path gives an empty vocabulary; a missing file gives an empty vocabulary when its directory exists and ConfigError when not; a malformed line raises its ValueError; a well-formed file gives its kept tokens |
| SimpleVocab.SimpleVocabulary.Reset | deeppavlov/core/data/simple_vocab.py:141-153 | `reset` empties `_t2i`, `_i2t`, `freqs` and the count |
| SimpleVocab.SimpleVocabulary.Append | deeppavlov/core/data/simple_vocab.py:60-62 | Adding a token appends it to `_i2t`, maps it to the old count and increments the count |
| SimpleVocab.SimpleVocabulary.AppendAll | deeppavlov/core/data/simple_vocab.py:59-62 | The special-token loop appends them all, in order |
| SimpleVocab.SimpleVocabulary.AppendFrequent | deeppavlov/core/data/simple_vocab.py:63-67 | The most-common loop appends exactly the entries that reach `min_freq`, in order |
| SimpleVocab.SimpleVocabulary.Fit | deeppavlov/core/data/simple_vocab.py:53-67 | After `fit`, `_i2t` is the special tokens followed by the selected corpus tokens, `_t2i` holds exactly those tokens, and `freqs` counts the non-empty corpus tokens |
| SimpleVocab.SimpleVocabulary.AppendKept | deeppavlov/core/data/simple_vocab.py:72-76 | The loading loop appends the kept tokens in order |
| SimpleVocab.SimpleVocabulary.AddTokensWithFreqs | deeppavlov/core/data/simple_vocab.py:69-76 | `freqs` is the zip of tokens and counts, last occurrence winning, and the kept tokens are appended |
| SimpleVocab.SimpleVocabulary.Load | deeppavlov/core/data/simple_vocab.py:96-112 | The vocabulary is reset first. No load path raises ConfigError; a missing file is fine only when its directory exists; a malformed line of the file, read with universal newlines, raises; in these three cases the vocabulary stays empty and has no frequencies. Otherwise it holds the kept tokens of the file and their frequencies |
| SimpleVocab.SimpleVocabulary.Save | deeppavlov/core/data/simple_vocab.py:88-94 | `save` writes the text of the current entries and frequencies, one line after another |
| SimpleVocab.SimpleVocabulary.GetItem | deeppavlov/core/data/simple_vocab.py:127-133 | `__getitem__` returns the pure lookup's result and leaves each looked-up string in `_t2i` |
| SimpleVocab.SimpleVocabulary.Call | deeppavlov/core/data/simple_vocab.py:78-86 | `__call__` returns the pure lookup of the nested batch and keeps the index consistent |
| SimpleVocab.SimpleVocabulary.Contains | deeppavlov/core/data/simple_vocab.py:135-136 | Every vocabulary token is contained |
| SimpleVocab.SimpleVocabulary.Len | deeppavlov/core/data/simple_vocab.py:138-139 | The length is the number of entries |
| DefaultTracker.FilteredMembers | deeppavlov/models/trackers/default_tracker.py:43-44 | `_filter` keeps exactly the pairs whose slot is a known slot name |
| DefaultTracker.FilteredIdempotent | deeppavlov/models/trackers/default_tracker.py:43-44 | Filtering twice is filtering once |
| DefaultTracker.Added | deeppavlov/models/trackers/default_tracker.py:45-49 | Every pair `update_state` adds names a known slot |
| DefaultTracker.FeaturesMeaning | deeppavlov/models/trackers/default_tracker.py:59-65 | Feature `i` is 1 iff slot name `i` has been given a value in the history, 0 otherwise |
| DefaultTracker.FeaturesOfEmpty | deeppavlov/models/trackers/default_tracker.py:38-65 | With an empty history, every feature is 0 |
| DefaultTracker.Tracker.constructor | deeppavlov/models/trackers/default_tracker.py:26-28 | A new tracker has the slot names, an empty history and zero features |
| DefaultTracker.Tracker.StateSize | deeppavlov/models/trackers/default_tracker.py:30-32 | The state size is the number of slot names |
| DefaultTracker.Tracker.NumFeatures | deeppavlov/models/trackers/default_tracker.py:34-36 | There is one feature per slot name |
| DefaultTracker.Tracker.ResetState | deeppavlov/models/trackers/default_tracker.py:38-40 | Resetting empties the history and zeroes the features |
| DefaultTracker.Tracker.UpdateState | deeppavlov/models/trackers/default_tracker.py:42-51 | The filtered pairs of a list or a dict are appended to the history, anything else adds nothing, and the features are recomputed |
| DefaultTracker.Tracker.GetState | deeppavlov/models/trackers/default_tracker.py:53-57 | The state maps each slot in the history to its last value |
| DefaultTracker.Tracker.BinaryFeatures | deeppavlov/models/trackers/default_tracker.py:59-65 | The loop computes the 0/1 feature of every slot name |
| DefaultTracker.Tracker.Call | deeppavlov/models/trackers/default_tracker.py:67-68 | `__call__` returns one 0/1 feature per slot name, 1 iff the slot has a value |
| SlotFill.OutsideTag | deeppavlov/models/ner/slotfill.py:140-142 | The tag `O` reads as prefix `O`, type `O`, not beginning |
| SlotFill.EntityTag | deeppavlov/models/ner/slotfill.py:140-142 | A tag `B-t`/`I-t` reads as prefix `B`/`I` and type `t` |
| SlotFill.ReadPossible | deeppavlov/models/ner/slotfill.py:140-142 | Any tag starting with `B-` has first piece `B`, so the loop never meets a beginning tag with another prefix |
| SlotFill.StepCases | deeppavlov/models/ner/slotfill.py:142-161 | One step of `_chunk_finder`: B- closes the open chunk and opens one; I- of the previous type extends it, of another type closes it; O closes it; every tag becomes the previous tag |
| SlotFill.ScanGood | deeppavlov/models/ner/slotfill.py:139-161 | During the scan every chunk's words are the tokens at its increasing positions, and every B- position scanned belongs to a chunk |
| SlotFill.FoundBounds | deeppavlov/models/ner/slotfill.py:133-165 | Every entity is non-empty and holds the tokens at its positions; positions are increasing across entities and below the zipped length, so at most that many tokens are used; every B- token belongs to an entity |
| SlotFill.FoundNoneForOutside | deeppavlov/models/ner/slotfill.py:133-165 | All-O tags give no entity |
| SlotFill.ScanRuns | deeppavlov/models/ner/slotfill.py:139-161 | For BIO tags each chunk covers consecutive positions whose tags carry its slot type |
| SlotFill.FoundRuns | deeppavlov/models/ner/slotfill.py:133-165 | For well-formed tags every entity is a contiguous slice of the tokens whose tags all have the entity's slot type |
| SlotFill.FoundTypes | deeppavlov/models/ner/slotfill.py:133-165 | For well-formed tags every entity's slot is an entity type, never `O` |
| SlotFill.RunWords | deeppavlov/models/ner/slotfill.py:143-155 | The words at consecutive positions are a slice of the tokens |
| SlotFill.ChunkFinder | deeppavlov/models/ner/slotfill.py:132-165 | `_chunk_finder` returns the joined words and the slot of each chunk the scan finds, equally many |
| SlotFill.CloseOutputs | deeppavlov/models/ner/slotfill.py:143-164 | Closing a non-empty chunk appends its joined words and the previous tag |
| SlotFill.PredictSlots | deeppavlov/models/ner/slotfill.py:110-117 | `predict_slots` returns the slot values of the found entities |
| SlotFill.SlotValuesMeaning | deeppavlov/models/ner/slotfill.py:110-117 | The slots filled are exactly those of the found entities, and a slot holds the normalised value of its last entity |
| SlotFill.NonEmptyMeaning | deeppavlov/models/ner/slotfill.py:102 | `m` lists, in increasing order, exactly the positions of non-empty utterances |
| SlotFill.PickNonEmpty | deeppavlov/models/ner/slotfill.py:102-104 | The sub-batch holds only non-empty utterances, all of them |
| SlotFill.Utterances | deeppavlov/models/ner/slotfill.py:97-98 | A batch of strings is tokenised one utterance per string |
| SlotFill.Call | deeppavlov/models/ner/slotfill.py:95-108 | `__call__` returns one slot dictionary per utterance, or the IndexError of an empty batch |
| SlotFill.FillSlots | deeppavlov/models/ner/slotfill.py:106-107 | The loop writes the predicted slots of each tagged utterance into its position |
| SlotFill.CallShape | deeppavlov/models/ner/slotfill.py:95-108 | The call fails iff the batch is empty, and otherwise returns one dictionary per utterance |
| SlotFill.FilledAt | deeppavlov/models/ner/slotfill.py:100-107 | Positions not tagged stay empty; each tagged position holds the slot values of its utterance and tags |
| SlotFill.CallValues | deeppavlov/models/ner/slotfill.py:95-108 | An empty utterance gets an empty dictionary; the `j`-th non-empty utterance gets the slots predicted from the `j`-th tag list |
| SlotFill.SaveParams | deeppavlov/models/ner/slotfill.py:183-190 | `save_params` writes every graph parameter (None when absent) and every vocabulary, or raises KeyError for a missing vocabulary |
| SlotFill.LoadParams | deeppavlov/models/ner/slotfill.py:192-208 | `load_params` is the parameter check, passing when no file is saved |
| SlotFill.CheckGraphPass | deeppavlov/models/ner/slotfill.py:199-203 | The graph check passes iff every graph parameter is saved and Python-equal to the current one |
| SlotFill.CheckGraphFail | deeppavlov/models/ner/slotfill.py:199-203 | A failed graph check names a missing (KeyError) or differing (ValueError) parameter |
| SlotFill.CheckVocabsPass | deeppavlov/models/ner/slotfill.py:204-208 | The vocabulary check passes iff every vocabulary exists and equals the saved list |
| SlotFill.CheckVocabsFail | deeppavlov/models/ner/slotfill.py:204-208 | A failed vocabulary check names the vocabulary that is missing or differs |
| SlotFill.LoadPassIff | deeppavlov/models/ner/slotfill.py:192-208 | Loading passes iff nothing is saved, or all graph parameters and vocabularies match the saved ones |
| SlotFill.LoadValueError | deeppavlov/models/ner/slotfill.py:199-208 | A ValueError names a saved graph parameter or vocabulary that differs from the current one |
| SlotFill.FirstMissingNone | deeppavlov/models/ner/slotfill.py:185-186 | No vocabulary is missing iff all three are present |
| SlotFill.SaveThenLoad | deeppavlov/models/ner/slotfill.py:183-208 | Parameters saved by `save_params` load back with no error |
| Infer.Renew | deeppavlov/core/commands/infer.py:37-42 | With `load_trained`, a component trained on data (`fit_on` or `in_y`) that has a `save_path` gets it as `load_path`; nothing else changes |
| Infer.BoundMeaning | deeppavlov/core/commands/infer.py:45 | Exactly the components with `in`, in pipe order, are appended to the chainer |
| Infer.BuildPipe | deeppavlov/core/commands/infer.py:31-52 | The pipe loop raises KeyError for a component with `in` but no `out`, and otherwise assembles the pipe |
| Infer.AssembledMeaning | deeppavlov/core/commands/infer.py:36-50 | Every component is built from its renewed configuration, and exactly the ones with `in` are bound, in order, with their own inputs and outputs |
| Infer.NoRewriteWithoutLoadTrained | deeppavlov/core/commands/infer.py:37 | Without `load_trained`, configurations are left unchanged and nothing is warned |
| Infer.BuiltVocabs | deeppavlov/core/commands/infer.py:61-65 | One vocabulary is built per entry of `vocabs` |
| Infer.BuildModelFromConfig | deeppavlov/core/commands/infer.py:29-68 | `build_model_from_config` builds the chainer pipe or the legacy model, with the KeyErrors of missing sections |
| Infer.LegacyBuild | deeppavlov/core/commands/infer.py:54-68 | Without `chainer`, the result is the reset model built from the renewed config and the built vocabularies, with a warning iff `save_path` is missing under `load_trained` |
| Infer.Round | deeppavlov/core/commands/infer.py:107-112 | A round reads one line per input and stops at the first exit word |
| Infer.InteractModel | deeppavlov/core/commands/infer.py:102-119 | The console loop produces the session of the model calls and its ending |
| Infer.InteractionCalls | deeppavlov/core/commands/infer.py:106-117 | The calls consume the input lines in order, one per model input, and none holds an exit word |
| Infer.InteractionEnding | deeppavlov/core/commands/infer.py:106-112 | The session ends at an exit word within the next round, or when the input runs out mid-round |
| Infer.ShapeOfCalls | deeppavlov/core/commands/infer.py:114-117 | With one input every call is flat; with several it is a batch holding one tuple of all of them |
| GoBot.LetterRun | deeppavlov/skills/go_bot/go_bot.py:171 | The longest run of ASCII letters at the start of a string |
| GoBot.PlaceholdersShape | deeppavlov/skills/go_bot/go_bot.py:171 | Every placeholder is a non-empty run of ASCII letters right after a `#` and not followed by another letter |
| GoBot.PlaceholderFound | deeppavlov/skills/go_bot/go_bot.py:171 | Conversely, every non-empty run of ASCII letters right after a `#` and not followed by another letter is a placeholder |
| GoBot.PlaceholdersComplete | deeppavlov/skills/go_bot/go_bot.py:171 | Every `#` followed by a letter yields the maximal run of letters after it as a placeholder |
| GoBot.NoPlaceholders | deeppavlov/skills/go_bot/go_bot.py:171 | A template without `#` has no placeholders |
| GoBot.OneHotMeaning | deeppavlov/skills/go_bot/go_bot.py:213-214 | The previous-action vector has a 1 at the action and 0 elsewhere |
| GoBot.MaskMeaning | deeppavlov/skills/go_bot/go_bot.py:165-174 | The mask is all ones when masking is off; with it on, an action gets 0 iff its template has a placeholder that is neither a tracked slot nor a database key |
| GoBot.BlockedMeaning | deeppavlov/skills/go_bot/go_bot.py:167-173 | A template is blocked iff one of its placeholders was never a tracked slot and is not a database key |
| GoBot.DecodeSlotsMeaning | deeppavlov/skills/go_bot/go_bot.py:156-163 | The slots for a template are the tracked slots and the database keys; a database value wins, as a string; any other slot has its last tracked value |
| GoBot.DbAfterNone | deeppavlov/skills/go_bot/go_bot.py:206-207 | Turns without a database result keep the current one |
| GoBot.DbAfterLast | deeppavlov/skills/go_bot/go_bot.py:206-207 | The database result after a sequence of turns is the last one given |
| GoBot.Bot.constructor | deeppavlov/skills/go_bot/go_bot.py:62-85 | A new bot has no database result and a zero previous-action vector with one entry per template |
| GoBot.Bot.EncodeResponse | deeppavlov/skills/go_bot/go_bot.py:148-149 | An act is encoded as its first position among the actions, or raises ValueError |
| GoBot.Bot.TurnReplyAt | deeppavlov/skills/go_bot/go_bot.py:218-229 | Reply `k` of a dialog is the template chosen at turn `k`, filled from the slots and database result seen up to that turn |
| GoBot.Bot.TurnRepliesPrefix | deeppavlov/skills/go_bot/go_bot.py:218-229 | A reply depends only on the turns up to its own: cutting later turns off does not change it |
| GoBot.Bot.ActionMask | deeppavlov/skills/go_bot/go_bot.py:165-174 | The loop over actions computes the mask of the current tracker and database state |
| GoBot.Bot.MaskAction | deeppavlov/skills/go_bot/go_bot.py:170-173 | One action's entry becomes 0 iff its template is blocked; the others do not change |
| GoBot.Bot.DecodeResponse | deeppavlov/skills/go_bot/go_bot.py:151-163 | The response is the chosen template generated from the decoded slots |
| GoBot.Bot.SetPrevAction | deeppavlov/skills/go_bot/go_bot.py:189-190 | The previous-action vector becomes the one-hot vector of the action |
| GoBot.Bot.Reset | deeppavlov/skills/go_bot/go_bot.py:236-240 | `reset` empties the tracker, clears the database result and zeroes the previous action |
| GoBot.Bot.Infer | deeppavlov/skills/go_bot/go_bot.py:198-216 | `_infer` feeds the utterance's slots to the tracker, masks with the old database result, records a new one, makes the chosen action the previous one and decodes its template |
| GoBot.Bot.InferTurn | deeppavlov/skills/go_bot/go_bot.py:221-228 | A turn whose `prev_resp_act` is not an action raises ValueError before anything changes: tracker, database result and previous action stay as they were; otherwise the turn is inferred |
| GoBot.Bot.InferDialog | deeppavlov/skills/go_bot/go_bot.py:218-229 | `_infer_dialog` resets and returns the replies of all turns, or raises the ValueError of the first turn with a bad previous act, leaving the bot as the turns before that one left it |
| GoBot.Bot.Call | deeppavlov/skills/go_bot/go_bot.py:231-234 | An empty batch raises IndexError and changes nothing. Strings get one reply each, continuing from the current state: the tracker has seen them all, the database result is kept and the previous action is the last one chosen. Dialogs get their replies each and leave the state of the last dialog; a bad act raises ValueError in the first dialog that has one, leaving the state of that dialog's turns before its first bad act |
| GoBot.Bot.CallUtterances | deeppavlov/skills/go_bot/go_bot.py:232-233 | A batch of strings never raises: each string is a turn without a previous act or database result, the replies continue from the current tracker history and database result, the tracker has seen every string, the database result is kept and the previous action is the last one chosen |
| GoBot.Bot.CallDialogs | deeppavlov/skills/go_bot/go_bot.py:234 | Each dialog of a batch is inferred from a reset state; it fails iff some turn has an unknown act, and then the bot holds the state of the first such dialog's turns before its first bad act; on success the bot is left with the tracker history, database result and previous action of the last dialog |
| GoBot.Bot.TrainTurn | deeppavlov/skills/go_bot/go_bot.py:180-193 | A training turn updates the tracker and database result and returns the response's action id and the mask, or raises ValueError for an unknown act, leaving the previous action as it was |
| GoBot.Bot.ActionIds | deeppavlov/skills/go_bot/go_bot.py:187-191 | Each target is the first position of its response among the actions (`list.index`) |
| GoBot.Bot.TrainDialog | deeppavlov/skills/go_bot/go_bot.py:178-193 | A dialog trains on the action ids and masks of its zipped turns; afterwards the tracker has seen the zipped turns, the database result is their last, and the previous action is the last response. At the first unknown act `j` it raises ValueError with the tracker having seen turns up to `j`, their database result, and the previous action of response `j - 1` |
| GoBot.Bot.TrainOnBatch | deeppavlov/skills/go_bot/go_bot.py:176-196 | `train_on_batch` gives the network one (targets, masks) pair per zipped dialog; it raises ValueError iff some dialog has an unknown act, and then the pairs of the dialogs before the first such dialog are kept and the bot is as that dialog's training left it when it raised; an empty batch changes nothing, otherwise the bot is left as the last dialog's training left it |
| GoBot.FirstBad | deeppavlov/skills/go_bot/go_bot.py:221-228 | The turn at which `_infer_dialog` raises: every earlier turn's previous act is known, and the turn itself has a bad one (or none is bad) |
| GoBot.Bot.FirstUnknown | deeppavlov/skills/go_bot/go_bot.py:187-191 | The response at which training raises: every earlier response is an action, and this one is not (or all are actions) |
| Bow.BowAt | new_hcn/models/bow.py:28-34 | Entry `i` counts the utterance's words equal to vocabulary word `i` when `i` is that word's first position, and is 0 otherwise |
| Bow.BowNonNegative | new_hcn/models/bow.py:28-34 | No entry is negative |
| Bow.BowIgnoresUnknown | new_hcn/models/bow.py:31 | A word outside the vocabulary changes nothing |
| Bow.BowSum | new_hcn/models/bow.py:28-34 | The entries add up to the number of words in the vocabulary |
| Bow.Encode | new_hcn/models/bow.py:28-34 | The loop computes the bag of words of the space-split utterance |
| Bow.Infer | new_hcn/models/bow.py:36-37 | `infer` is one count per vocabulary word, non-negative, summing to the known words |
| TripletsPreprocessor.EntityIdInjective | deeppavlov/models/graph2text/triplets_preprocessor.py:26 | Distinct triplets get distinct entity ids |
| TripletsPreprocessor.KbsKeys | deeppavlov/models/graph2text/triplets_preprocessor.py:24-38 | The keys of `kbs` are exactly `E0`…`E(n-1)` |
| TripletsPreprocessor.KbsAt | deeppavlov/models/graph2text/triplets_preprocessor.py:26-37 | `E<i>` holds `[to, to, [[relation, from]]]` of triplet `i` |
| TripletsPreprocessor.PreprocessedSuccess | deeppavlov/models/graph2text/triplets_preprocessor.py:20-47 | The call succeeds iff every triplet has three parts and every set has a text; each record has its id, its `kbs` and its text (`dummy text.` without texts) |
| TripletsPreprocessor.PreprocessedFailure | deeppavlov/models/graph2text/triplets_preprocessor.py:27-43 | A failure is the first set's ValueError (a triplet not of three) or IndexError (no text) |
| TripletsPreprocessor.PreprocessedPrefix | deeppavlov/models/graph2text/triplets_preprocessor.py:21-45 | An exception in an earlier set is the result of the whole call |
| TripletsPreprocessor.BuildKbs | deeppavlov/models/graph2text/triplets_preprocessor.py:24-38 | The inner loop builds `kbs`, or fails iff a triplet does not have three parts |
| TripletsPreprocessor.Call | deeppavlov/models/graph2text/triplets_preprocessor.py:11-47 | `__call__` computes the preprocessed sets |
| SquadIterator.ParagraphsCount | deeppavlov/dataset_iterators/squad_iterator.py:42-51 | The paragraphs give one entry per question |
| SquadIterator.ArticlesCount | deeppavlov/dataset_iterators/squad_iterator.py:41-51 | The articles give one entry per question |
| SquadIterator.ArticlesAppend | deeppavlov/dataset_iterators/squad_iterator.py:41 | Extraction distributes over concatenated articles |
| SquadIterator.ParagraphsEntries | deeppavlov/dataset_iterators/squad_iterator.py:42-51 | Every entry comes from a question of one of the paragraphs, with that paragraph's context |
| SquadIterator.ArticlesEntries | deeppavlov/dataset_iterators/squad_iterator.py:39-52 | Every entry comes from a question of some article and paragraph, and has as many answer texts as answer starts |
| SquadIterator.ExtractAnswers | deeppavlov/dataset_iterators/squad_iterator.py:46-50 | The loop collects every answer's text and start, in order |
| SquadIterator.ExtractParagraph | deeppavlov/dataset_iterators/squad_iterator.py:43-51 | The loop gives the paragraph's entries |
| SquadIterator.ExtractArticles | deeppavlov/dataset_iterators/squad_iterator.py:41-51 | The nested loops give the articles' entries |
| SquadIterator.ExtractCqas | deeppavlov/dataset_iterators/squad_iterator.py:27-52 | Empty data gives no entries; SQuAD data gives the articles' entries; an already extracted non-empty list raises TypeError |
| SquadIterator.Iterator.Split | deeppavlov/dataset_iterators/squad_iterator.py:23-25 | `split` replaces train, valid and test by their entries; at the first field that fails it raises, the fields before it already replaced and the rest unchanged |
| ClassificationDataset.FirstMissing | deeppavlov/datasets/classification_dataset.py:105-106 | The first field to merge that the data lacks, if any |
| ClassificationDataset.MergedMeaning | deeppavlov/datasets/classification_dataset.py:93-108 | The merge fails with KeyError iff a field is missing; otherwise only the merged field changes, to the concatenation of the fields in order |
| ClassificationDataset.ConcatLength | deeppavlov/datasets/classification_dataset.py:104-106 | The merged field is as long as the fields together |
| ClassificationDataset.ConcatMembers | deeppavlov/datasets/classification_dataset.py:104-106 | The merged field holds exactly the items of the merged fields |
| ClassificationDataset.MergeWithoutTarget | deeppavlov/datasets/classification_dataset.py:51-58 | Fields to merge without a merged field raise IOError |
| ClassificationDataset.SplitAfterMerge | deeppavlov/datasets/classification_dataset.py:51-69 | After a merge, a split without split fields raises IOError; with them the split sees the merged data |
| ClassificationDataset.NothingRequested | deeppavlov/datasets/classification_dataset.py:51-60 | Without merge or split requests the data is kept |
| ClassificationDataset.Dataset.Create | deeppavlov/datasets/classification_dataset.py:30-69 | The constructor succeeds with the merged-then-split data, or raises the first error |
| ClassificationDataset.Dataset.Configure | deeppavlov/datasets/classification_dataset.py:51-69 | The merge and split requests leave the data they describe, or the first error |
| ClassificationDataset.Dataset.MergeData | deeppavlov/datasets/classification_dataset.py:93-108 | `_merge_data` replaces the data by the merged data, or leaves it unchanged on KeyError |
| Server.FirstUnacceptable | utils/server_utils/server.py:62-68 | The first argument that is neither None nor a non-empty list, if any |
| Server.RequestErrors | utils/server_utils/server.py:62-77 | A JSON request is refused iff an argument is neither None nor a non-empty list; all-None is an empty request; lists of different lengths are several batch sizes |
| Server.OneName | utils/server_utils/server.py:79-80 | With one argument name the model gets that argument as it came |
| Server.SeveralNames | utils/server_utils/server.py:81-84 | With several names the model gets one row per batch element; row `i` holds every argument's element `i`, None for a missing argument |
| Server.Interact | utils/server_utils/server.py:52-88 | `interact` answers 400 with the refusal, or 200 with the model's prediction |
| Server.ServerParamsMeaning | utils/server_utils/server.py:29-49 | The parameters are the common defaults overridden by the model's truthy defaults; the server starts iff every value is truthy |
| Server.GetServerParams | utils/server_utils/server.py:29-49 | `get_server_params` computes the parameters once the configurations are read |
| Server.ApplyDefaults | utils/server_utils/server.py:37-41 | The loop replaces a common value by every truthy model default |
| Server.CheckParams | utils/server_utils/server.py:43-47 | The loop exits with code 1 iff some value is falsy |
| Text.JoinSplit | new_hcn/models/bow.py:30 | Joining the split parts with the separator gives back the string |
| Text.ParseIntOfIntToString | deeppavlov/core/data/simple_vocab.py:94-105 | `int()` of a printed count followed by a newline gives back the count |
| Text.IntToStringInjective | deeppavlov/core/data/simple_vocab.py:94 | Different counts print differently |
| Text.FileLinesOfWritten | deeppavlov/core/data/simple_vocab.py:88-101 | Text written as lines that each end in their only newline and hold no carriage return is read back, with universal newlines, as the same lines |
| Text.ConcatCutLines | deeppavlov/core/data/simple_vocab.py:101 | Iterating over a file loses no text: the lines put together are the text |
| Json.PyEqualStrings | deeppavlov/models/ner/slotfill.py:206 | Two lists of strings are Python-equal iff they are the same list |

## Left out

- The component registry, `from_params`, the `Chainer` and the `Agent` are not part of this model. Building a component and the chainer's `append` are parameters or recorded bindings.
- `build_agent_from_config` and `interact_agent` are left out. They drive the agent and commutator, which are not part of this model.
- Neural networks, TensorFlow/Keras sessions and embedders are left out. The go-bot's network choice of action, the slot filler's tagger and the intent classifier are parameters.
- `_encode_context` of the go-bot is left out. Its float feature vector and the network's probabilities feed only the network, so only the chosen action is modelled. The `prob=True` branch of `_infer` is not modelled, because no caller passes it.
- `ner2slot` (fuzzy matching of entities against slot values) is a parameter `normalize`. Downloading `slot_vals.json` and the best model is left out.
- Files, downloads and the console are not modelled. The vocabulary file is the text it holds, read with universal newlines; other loaded files are sequences of lines or maps already read. `input()` is a list of lines, with end of input standing for EOFError. `print` and logging are dropped.
- The base `Dataset` class of the classification dataset is not part of this model; its constructor is taken to store the fields as passed.
- `_split_data` of the classification dataset is a parameter. Its random `train_test_split` is not modelled.
- SimpleVocab.SimpleVocabulary.Call: models `__call__` without the `zero_pad` of numeric results when `pad_with_zeros` is set. NumPy padding of ragged lists is not modelled.
- The `len`, `keys`, `values` and `items` helpers of the vocabulary are not modelled. They only enumerate `range(len(self))` through `__getitem__`.
- SimpleVocab.SimpleVocabulary.Contains: states only that every vocabulary token is contained. `_t2i` is a defaultdict, so a string looked up earlier is contained too, and the contract leaves that case open.
- Bow.Encode: counts are unbounded integers. The `np.int32` wrap-around of the source is not modelled.
- DefaultTracker.Tracker.UpdateState: features are 0/1 integers rather than `float32`. Slot values are strings.
- SimpleVocab.SavedLinesParse: promises the round trip only for tokens without tab, newline or carriage return. `load` cuts the file at line breaks and each line at its first tab, so such tokens do not come back (SimpleVocab.NewlineTokenSplits shows the newline case).
- SimpleVocab.SaveLoadRoundTrip: the same restriction to tokens without tab, newline or carriage return.
- SimpleVocab.FitThenSaveLoad: the same restriction, on the corpus tokens and the special tokens.
- SquadIterator.ExtractCqas: SQuAD data is typed, so the KeyErrors of a dict lacking `data`, `paragraphs`, `context`, `qas`, `question`, `answers`, `text` or `answer_start` are not modelled.
- SlotFill.PredictSlots: `ner2slot` is the total parameter `normalize`. Its KeyError for a slot missing from `slot_vals.json` and its IndexError when that slot has no values are not modelled.
- SlotFill.Call: inherits the `ner2slot` gap of SlotFill.PredictSlots, and so do SlotFill.CallShape and SlotFill.CallValues.
- SlotFill.CallShape: never fails on a non-empty batch, because `normalize` cannot raise.
- SlotFill.CallValues: the values come from the total `normalize`.
- JSON values have no floats. `int()` accepts only ASCII digits with an optional sign, without `_` separators. `max_tokens` is a natural number, so a negative slice bound is not modelled. JSON objects are maps, so key order is not kept.
- Infer.BuildModelFromConfig: every ill-typed configuration becomes TypeError, checked before the pipe is walked. A pipe element that is not an object is reported even when an earlier element lacks `out`, where the source raises that KeyError first. A `vocabs` entry that is not a dict, where the source raises AttributeError, is also reported as TypeError.
- `set_deeppavlov_root` is left out. Renewing `load_path` yields a new configuration; the source writes it into the caller's dict in place.
- GoBot.Bot.TrainOnBatch: returns the network's training input per dialog instead of calling `network.train_on_batch`; when a dialog raises, the input of the dialogs before it is returned beside the error, which the network would have received in the same order.
- Server.ModelTag: a tag that is not a string is treated as absent from `model_defaults`. An unhashable tag would raise TypeError in the source.
- Flask routing, CORS, Swagger documentation and `start_model_server` are left out. `interact` takes the request's JSON flag and body as parameters.
